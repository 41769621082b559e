/** The line-oriented extractors `parse_bank_statement` and `parse_cibil`. */
module Statements {
  import opened Wrappers
  import opened Text
  import opened Amounts
  import opened Patterns

  // ---------------------------------------------------------- Bank statement

  /** One entry of the `obligations` list: the stripped line and its amount. */
  datatype Obligation = Obligation(line: string, amount: Option<nat>)

  /** The dict `parse_bank_statement` returns. */
  datatype Statement = Statement(obligations: seq<Obligation>, salaryCredits: seq<nat>, avgBalance: Option<nat>)

  /** `\b(EMI|EMI Debit|instalment|installment|loan)\b`, ignoring case. */
  const EmiKeywords: seq<Keyword> := [Word("emi"), Word("emi debit"), Word("instalment"), Word("installment"), Word("loan")]

  /** `\bSalary\b|\bCredit Salary\b|\bSALARY CREDIT\b`, ignoring case. */
  const SalaryKeywords: seq<Keyword> := [Word("salary"), Word("credit salary"), Word("salary credit")]

  predicate IsEmiLine(line: string) { AnyOccurs(EmiKeywords, Lower(line)) }

  predicate IsSalaryLine(line: string) { AnyOccurs(SalaryKeywords, Lower(line)) }

  /** `Rs\.?\s*([0-9,]+)`, case as written, at `i`. */
  function RsCaptureAt(s: string, i: nat): Option<string>
  {
    RsAmountAt(s, i, false)
  }

  /** The first `Rs` amount of a line. */
  function FirstRsAmount(line: string): (r: Option<string>)
    ensures r.Some? <==> exists i :: 0 <= i <= |line| && RsCaptureAt(line, i).Some?
    ensures r.Some? ==> r.value != [] && AllAmountChars(r.value)
  {
    Search(line, RsCaptureAt)
  }

  /** A line's amount is the run after its first `Rs` that is followed by an
      optional dot, white space and a digit or comma. */
  lemma FirstRsAmountCaptures(line: string)
    requires FirstRsAmount(line).Some?
    ensures exists i :: 0 <= i <= |line| && HasAt(line, i, "Rs") && CapturesAmount(line, i + 2, FirstRsAmount(line).value)
                        && forall j :: 0 <= j < i ==> RsCaptureAt(line, j).None?
  {
    var i :| 0 <= i <= |line| && RsCaptureAt(line, i) == FirstRsAmount(line)
              && forall j :: 0 <= j < i ==> RsCaptureAt(line, j).None?;
    RsAmountAtCaptures(line, i, false);
  }

  /** What one line adds to `obligations`: one entry when it names an instalment. */
  function LineObligations(line: string): Result<seq<Obligation>>
  {
    if !IsEmiLine(line) then Ok([])
    else
      match OptionalAmount(FirstRsAmount(line))
      case Err(e) => Err(e)
      case Ok(amount) => Ok([Obligation(Strip(line), amount)])
  }

  /** What one line adds to `salary_credits`: its amount when it mentions salary
      and carries one. */
  function LineCredits(line: string): Result<seq<nat>>
  {
    if !IsSalaryLine(line) then Ok([])
    else
      match OptionalAmount(FirstRsAmount(line))
      case Err(e) => Err(e)
      case Ok(None) => Ok([])
      case Ok(Some(v)) => Ok([v])
  }

  /** The line loop over `lines`: obligations and credits in line order. */
  function ScanLines(lines: seq<string>): Result<(seq<Obligation>, seq<nat>)>
    decreases |lines|
  {
    if lines == [] then Ok(([], []))
    else
      match ScanLines(lines[..|lines| - 1])
      case Err(e) => Err(e)
      case Ok((obligations, credits)) =>
        var line := lines[|lines| - 1];
        match LineObligations(line)
        case Err(e) => Err(e)
        case Ok(o) =>
          match LineCredits(line)
          case Err(e) => Err(e)
          case Ok(c) => Ok((obligations + o, credits + c))
  }

  /** One more line: the loop raises where that line raises, and otherwise
      appends what the line adds. */
  lemma ScanLinesSnoc(init: seq<string>, line: string)
    requires ScanLines(init).Ok?
    ensures LineObligations(line).Err? || LineCredits(line).Err? ==> ScanLines(init + [line]).Err?
    ensures LineObligations(line).Ok? && LineCredits(line).Ok? ==>
              ScanLines(init + [line]) == Ok((ScanLines(init).value.0 + LineObligations(line).value,
                                              ScanLines(init).value.1 + LineCredits(line).value))
  {
    assert (init + [line])[..|init|] == init;
  }

  lemma {:induction false} ScanLinesErr(lines: seq<string>, k: nat)
    requires k <= |lines| && ScanLines(lines[..k]).Err?
    ensures ScanLines(lines).Err?
    decreases |lines|
  {
    if k < |lines| {
      assert lines[..|lines| - 1][..k] == lines[..k];
      ScanLinesErr(lines[..|lines| - 1], k);
    } else {
      assert lines[..k] == lines;
    }
  }

  /** A line whose amount capture has no digit makes `int` raise. */
  predicate RaisesOn(line: string)
  {
    (IsEmiLine(line) || IsSalaryLine(line)) && FirstRsAmount(line).Some? && !HasDigit(FirstRsAmount(line).value)
  }

  lemma LineRaises(line: string)
    ensures LineObligations(line).Err? || LineCredits(line).Err? <==> RaisesOn(line)
  {
  }

  /** The loop over `lines` raises exactly when the loop over all lines but the
      last does, or the last line does. */
  lemma ScanLinesStep(lines: seq<string>)
    requires lines != []
    ensures ScanLines(lines).Err? <==> ScanLines(lines[..|lines| - 1]).Err? || RaisesOn(lines[|lines| - 1])
  {
    LineRaises(lines[|lines| - 1]);
  }

  /** A loop that raises has a line that raises. */
  lemma {:induction false} RaisingLine(lines: seq<string>) returns (k: nat)
    requires ScanLines(lines).Err?
    ensures k < |lines| && RaisesOn(lines[k])
    decreases |lines|
  {
    var init := lines[..|lines| - 1];
    ScanLinesStep(lines);
    if ScanLines(init).Err? {
      k := RaisingLine(init);
      assert lines[k] == init[k];
    } else {
      k := |lines| - 1;
    }
  }

  /** A loop that does not raise has no line that raises. */
  lemma {:induction false} NoRaiseAt(lines: seq<string>, k: nat)
    requires ScanLines(lines).Ok? && k < |lines|
    ensures !RaisesOn(lines[k])
    decreases |lines|
  {
    ScanLinesStep(lines);
    if k < |lines| - 1 {
      NoRaiseAt(lines[..|lines| - 1], k);
    }
  }

  /** The loop raises exactly when some line does. */
  lemma ScanLinesRaises(lines: seq<string>)
    ensures ScanLines(lines).Err? <==> exists k :: 0 <= k < |lines| && RaisesOn(lines[k])
  {
    if ScanLines(lines).Err? {
      var k := RaisingLine(lines);
    } else {
      forall k | 0 <= k < |lines| ensures !RaisesOn(lines[k]) {
        NoRaiseAt(lines, k);
      }
    }
  }

  /** An obligation holds the stripped line and its first `Rs` amount, or no
      amount when the line has none. */
  predicate RecordsLine(o: Obligation, line: string)
  {
    && o.line == Strip(line)
    && (o.amount.None? <==> FirstRsAmount(line).None?)
    && (o.amount.Some? ==> Amount(FirstRsAmount(line).value) == Ok(o.amount.value))
  }

  /** When the loop does not raise, there is one obligation per instalment line,
      in line order. */
  lemma {:induction false} ObligationPerEmiLine(lines: seq<string>)
    requires ScanLines(lines).Ok?
    ensures |ScanLines(lines).value.0| == |Filter(lines, IsEmiLine)|
    ensures forall k :: 0 <= k < |Filter(lines, IsEmiLine)| ==> RecordsLine(ScanLines(lines).value.0[k], Filter(lines, IsEmiLine)[k])
    decreases |lines|
  {
    if lines != [] {
      var init, line := lines[..|lines| - 1], lines[|lines| - 1];
      assert ScanLines(init).Ok?;
      ObligationPerEmiLine(init);
      var before, o := ScanLines(init).value.0, LineObligations(line).value;
      var after := ScanLines(lines).value.0;
      assert after == before + o;
      var emi, emiBefore := Filter(lines, IsEmiLine), Filter(init, IsEmiLine);
      assert emi == emiBefore + (if IsEmiLine(line) then [line] else []);
      assert |o| == if IsEmiLine(line) then 1 else 0;
      forall k | 0 <= k < |emi| ensures RecordsLine(after[k], emi[k]) {
        if k < |emiBefore| {
          assert after[k] == before[k] && emi[k] == emiBefore[k];
        } else {
          assert after[k] == o[0] && emi[k] == line;
        }
      }
    }
  }

  /** A line that mentions salary and carries an `Rs` amount. */
  predicate IsCreditLine(line: string) { IsSalaryLine(line) && FirstRsAmount(line).Some? }

  /** A line that does not raise adds one credit when it mentions salary and
      carries an amount, and that credit is the amount; otherwise none. */
  lemma LineCreditsValue(line: string) returns (c: seq<nat>)
    requires LineCredits(line).Ok?
    ensures c == LineCredits(line).value
    ensures IsCreditLine(line) ==> |c| == 1 && Amount(FirstRsAmount(line).value) == Ok(c[0])
    ensures !IsCreditLine(line) ==> c == []
  {
    c := LineCredits(line).value;
  }

  /** `v` is the value of the line's first `Rs` amount. */
  predicate CreditAmount(line: string, v: nat)
  {
    FirstRsAmount(line).Some? && Amount(FirstRsAmount(line).value) == Ok(v)
  }

  /** When the loop does not raise, there is one salary credit per salary line
      that carries an amount, in line order, and it is that amount. */
  lemma {:induction false} CreditPerSalaryLine(lines: seq<string>)
    requires ScanLines(lines).Ok?
    ensures Paired(Filter(lines, IsCreditLine), ScanLines(lines).value.1, CreditAmount)
    decreases |lines|
  {
    if lines != [] {
      var init, line := lines[..|lines| - 1], lines[|lines| - 1];
      assert ScanLines(init).Ok?;
      CreditPerSalaryLine(init);
      var c := LineCreditsValue(line);
      assert ScanLines(lines).value.1 == ScanLines(init).value.1 + c;
      FilterSnoc(init, line, IsCreditLine);
      PairedSnoc(Filter(init, IsCreditLine), ScanLines(init).value.1, line, c, IsCreditLine, CreditAmount);
    }
  }

  /** `Average\s+Balance\s*[:\-]?\s*Rs\.?\s*([0-9,]+)` ignoring case, at `i`. */
  function AvgBalanceAt(s: string, i: nat): (r: Option<string>)
    ensures r.Some? ==> SpacedLabelEnd(s, i, "average", "balance").Some? && r.value != [] && AllAmountChars(r.value)
  {
    LabelledAmount(s, SpacedLabelEnd(s, i, "average", "balance"))
  }

  /** The average balance is the run after `Average`, white space, `Balance`,
      the separators, `Rs`, an optional dot and white space. */
  lemma AvgBalanceAtCaptures(s: string, i: nat)
    requires AvgBalanceAt(s, i).Some?
    ensures var j := LabelSep(s, SpacedLabelEnd(s, i, "average", "balance").value);
            RsAt(s, j, true) && CapturesAmount(s, j + 2, AvgBalanceAt(s, i).value)
  {
    LabelledAmountCaptures(s, SpacedLabelEnd(s, i, "average", "balance"));
  }

  /** `parse_bank_statement` as a value. */
  function BankStatement(text: string): Result<Statement>
  {
    match ScanLines(SplitLines(text))
    case Err(e) => Err(e)
    case Ok((obligations, credits)) =>
      match OptionalAmount(Search(text, AvgBalanceAt))
      case Err(e) => Err(e)
      case Ok(avg) => Ok(Statement(obligations, credits, avg))
  }

  /** `parse_bank_statement` raises exactly when some EMI or salary line has an
      `Rs` capture without a digit, or the average-balance capture has none. */
  lemma BankStatementRaises(text: string)
    ensures BankStatement(text).Err? <==>
              || (exists k :: 0 <= k < |SplitLines(text)| && RaisesOn(SplitLines(text)[k]))
              || (Search(text, AvgBalanceAt).Some? && !HasDigit(Search(text, AvgBalanceAt).value))
  {
    var lines := SplitLines(text);
    ScanLinesRaises(lines);
    var avg := OptionalAmount(Search(text, AvgBalanceAt));
    if ScanLines(lines).Err? {
      assert BankStatement(text).Err?;
    } else {
      assert !exists k :: 0 <= k < |lines| && RaisesOn(lines[k]);
      assert BankStatement(text).Err? <==> avg.Err?;
    }
  }

  /** What a statement that parses holds: one obligation per EMI line, one
      credit per salary line with an `Rs` figure, and the amount of the first
      average-balance capture, if any. */
  lemma BankStatementFields(text: string)
    requires BankStatement(text).Ok?
    ensures var st, lines := BankStatement(text).value, SplitLines(text);
            && |st.obligations| == |Filter(lines, IsEmiLine)|
            && (forall k :: 0 <= k < |st.obligations| ==> RecordsLine(st.obligations[k], Filter(lines, IsEmiLine)[k]))
            && Paired(Filter(lines, IsCreditLine), st.salaryCredits, CreditAmount)
    ensures var st := BankStatement(text).value;
            && (st.avgBalance.Some? <==> exists i :: 0 <= i <= |text| && AvgBalanceAt(text, i).Some?)
            && (st.avgBalance.Some? ==>
                  exists i :: 0 <= i <= |text| && AvgBalanceAt(text, i).Some?
                    && (forall j :: 0 <= j < i ==> AvgBalanceAt(text, j).None?)
                    && Amount(AvgBalanceAt(text, i).value) == Ok(st.avgBalance.value))
  {
    var lines := SplitLines(text);
    ObligationPerEmiLine(lines);
    CreditPerSalaryLine(lines);
  }

  /** `parse_bank_statement`: appends to the two lists line by line. */
  method ParseBankStatement(text: string) returns (r: Result<Statement>)
    ensures r == BankStatement(text)
  {
    var lines := SplitLines(text);
    var obligations: seq<Obligation> := [];
    var credits: seq<nat> := [];
    for i := 0 to |lines|
      invariant ScanLines(lines[..i]) == Ok((obligations, credits))
    {
      var line := lines[i];
      assert lines[..i + 1] == lines[..i] + [line];
      ScanLinesSnoc(lines[..i], line);
      var o := LineObligations(line);
      if o.Err? {
        ScanLinesErr(lines, i + 1);
        return Err(o.error);
      }
      obligations := obligations + o.value;
      var c := LineCredits(line);
      if c.Err? {
        ScanLinesErr(lines, i + 1);
        return Err(c.error);
      }
      credits := credits + c.value;
    }
    assert lines[..|lines|] == lines;
    var avg := OptionalAmount(Search(text, AvgBalanceAt));
    if avg.Err? {
      return Err(avg.error);
    }
    r := Ok(Statement(obligations, credits, avg.value));
  }

  // -------------------------------------------------------------- CIBIL report

  /** The dict `parse_cibil` returns; the `loans` key is always there. */
  datatype CibilFields = CibilFields(score: Option<nat>, loans: seq<string>)

  /** Three decimal digits at `p` read as a number below one thousand. */
  lemma ThreeDigits(s: string, p: nat)
    requires DigitsAt(s, p, 3)
    ensures AllDigits(s[p..p + 3]) && DecimalValue(s[p..p + 3]) <= 999
  {
    var d := s[p..p + 3];
    forall k | 0 <= k < 3 ensures IsDigit(d[k]) {
      assert d[k] == s[p + k];
    }
    assert d[..2][..1] == d[..1] && d[..1][..0] == [];
    assert DecimalValue(d[..1]) == DigitValue(d[0]);
    assert DecimalValue(d[..2]) == DigitValue(d[0]) * 10 + DigitValue(d[1]);
    assert DecimalValue(d) == DigitValue(d[0]) * 100 + DigitValue(d[1]) * 10 + DigitValue(d[2]);
  }

  /** Where the `(?:CIBIL|Credit Score)` label, ignoring case, ends when it is at `i`. */
  function ScoreLabelEnd(s: string, i: nat): (a: Option<nat>)
    ensures a.None? <==> !HasAtCi(s, i, "cibil") && !HasAtCi(s, i, "credit score")
    ensures a.Some? ==> a.value <= |s|
                        && (if HasAtCi(s, i, "cibil") then a.value == i + 5 else a.value == i + 12)
  {
    if HasAtCi(s, i, "cibil") then Some(i + 5)
    else if HasAtCi(s, i, "credit score") then Some(i + 12)
    else None
  }

  /** `(?:CIBIL|Credit Score)\s*[:\-]?\s*([0-9]{3})` ignoring case, at `i`,
      converted with `int`: the three digits right after the label and its
      separator. */
  function ScoreAt(s: string, i: nat): (r: Option<nat>)
    ensures r.Some? ==> r.value <= 999
    ensures r.Some? <==> ScoreLabelEnd(s, i).Some? && DigitsAt(s, LabelSep(s, ScoreLabelEnd(s, i).value), 3)
    ensures r.Some? ==>
              var p := LabelSep(s, ScoreLabelEnd(s, i).value);
              AllDigits(s[p..p + 3]) && r.value == DecimalValue(s[p..p + 3])
  {
    match ScoreLabelEnd(s, i)
    case None => None
    case Some(a) =>
      var p := LabelSep(s, a);
      if DigitsAt(s, p, 3) then
        ThreeDigits(s, p);
        Some(DecimalValue(s[p..p + 3]))
      else None
  }

  /** `\b(loan|outstanding|emI|emi)\b`, ignoring case (the last two coincide). */
  const LoanKeywords: seq<Keyword> := [Word("loan"), Word("outstanding"), Word("emi")]

  predicate IsLoanLine(line: string) { AnyOccurs(LoanKeywords, Lower(line)) }

  /** The loan-history lines, stripped, in order. */
  function LoanLines(lines: seq<string>): (r: seq<string>)
    ensures |r| <= |lines|
    decreases |lines|
  {
    if lines == [] then []
    else LoanLines(lines[..|lines| - 1]) + (if IsLoanLine(lines[|lines| - 1]) then [Strip(lines[|lines| - 1])] else [])
  }

  /** Every loan entry is the stripped form of some loan-history line. */
  lemma {:induction false} LoanLineOrigin(lines: seq<string>, l: string) returns (k: nat)
    requires l in LoanLines(lines)
    ensures k < |lines| && IsLoanLine(lines[k]) && l == Strip(lines[k])
    decreases |lines|
  {
    var init := lines[..|lines| - 1];
    if l in LoanLines(init) {
      k := LoanLineOrigin(init, l);
      assert lines[k] == init[k];
    } else {
      k := |lines| - 1;
    }
  }

  /** Every loan-history line gives a loan entry. */
  lemma {:induction false} LoanLineKept(lines: seq<string>, k: nat)
    requires k < |lines| && IsLoanLine(lines[k])
    ensures Strip(lines[k]) in LoanLines(lines)
    decreases |lines|
  {
    var init, last := lines[..|lines| - 1], lines[|lines| - 1];
    assert LoanLines(lines) == LoanLines(init) + (if IsLoanLine(last) then [Strip(last)] else []);
    if k < |init| {
      LoanLineKept(init, k);
      assert init[k] == lines[k];
    }
  }

  /** The loan entries are exactly the stripped loan-history lines. */
  lemma LoanLinesMembers(lines: seq<string>)
    ensures forall l :: l in LoanLines(lines) <==>
              exists k :: 0 <= k < |lines| && IsLoanLine(lines[k]) && l == Strip(lines[k])
  {
    forall l ensures l in LoanLines(lines) <==>
                       exists k :: 0 <= k < |lines| && IsLoanLine(lines[k]) && l == Strip(lines[k]) {
      if l in LoanLines(lines) {
        var k := LoanLineOrigin(lines, l);
      }
      if exists k :: 0 <= k < |lines| && IsLoanLine(lines[k]) && l == Strip(lines[k]) {
        var k :| 0 <= k < |lines| && IsLoanLine(lines[k]) && l == Strip(lines[k]);
        LoanLineKept(lines, k);
      }
    }
  }

  /** The loan entries of two runs of lines are those of the first run followed
      by those of the second: with the one-line case, every loan-history line
      gives exactly one entry, in line order. */
  lemma {:induction false} LoanLinesConcat(a: seq<string>, b: seq<string>)
    ensures LoanLines(a + b) == LoanLines(a) + LoanLines(b)
    decreases |b|
  {
    if b == [] {
      assert a + b == a;
    } else {
      assert (a + b)[..|a + b| - 1] == a + b[..|b| - 1];
      LoanLinesConcat(a, b[..|b| - 1]);
    }
  }

  /** `parse_cibil` as a value. */
  function Cibil(text: string): (r: CibilFields)
    ensures r.score.Some? ==> r.score.value <= 999
    ensures r.score.Some? <==> exists i :: 0 <= i <= |text| && ScoreAt(text, i).Some?
    ensures r.loans == LoanLines(SplitLines(text))
    ensures forall l :: l in r.loans ==> l == [] || (!IsSpace(l[0]) && !IsSpace(l[|l| - 1]))
  {
    LoanLinesStripped(SplitLines(text));
    CibilFields(Search(text, ScoreAt), LoanLines(SplitLines(text)))
  }

  /** The score `parse_cibil` keeps is the one at the first position where
      the score pattern matches. */
  lemma CibilScoreFirst(text: string)
    ensures Cibil(text).score.Some? ==>
              exists i :: 0 <= i <= |text| && ScoreAt(text, i) == Cibil(text).score
                && forall j :: 0 <= j < i ==> ScoreAt(text, j).None?
  {
  }

  lemma {:induction false} LoanLinesStripped(lines: seq<string>)
    ensures forall l :: l in LoanLines(lines) ==> l == [] || (!IsSpace(l[0]) && !IsSpace(l[|l| - 1]))
    decreases |lines|
  {
    if lines != [] {
      LoanLinesStripped(lines[..|lines| - 1]);
    }
  }

  /** `parse_cibil`: the score, then the loan lines appended one by one. */
  method ParseCibil(text: string) returns (r: CibilFields)
    ensures r == Cibil(text)
  {
    var score := Search(text, ScoreAt);
    var lines := SplitLines(text);
    var loans: seq<string> := [];
    for i := 0 to |lines|
      invariant loans == LoanLines(lines[..i])
    {
      assert lines[..i + 1][..i] == lines[..i];
      if IsLoanLine(lines[i]) {
        loans := loans + [Strip(lines[i])];
      }
    }
    assert lines[..|lines|] == lines;
    r := CibilFields(score, loans);
  }
}
