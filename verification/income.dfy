/** The income-document extractors `parse_form16` and `parse_salary_slip`. */
module Income {
  import opened Wrappers
  import opened Text
  import opened Amounts
  import opened Patterns

  // ------------------------------------------------------------------ Form 16

  /** The dict `parse_form16` returns. */
  datatype Form16Fields = Form16Fields(totalSalary: Option<nat>, taxableIncome: Option<nat>)

  /** `[:\-\s]`. */
  predicate IsTotalSep(c: char) { c == ':' || c == '-' || IsSpace(c) }

  /** Where `Total\s+Salary\s*[:\-\s]*` ends when matched at `i` ignoring case.
      The separator run can only end where `Rs` starts, so greed decides it. */
  function SalaryLabelEnd(s: string, i: nat): (a: Option<nat>)
    ensures a.Some? ==> HasAtCi(s, i, "total")
    ensures a.Some? ==> var p := SpanWhile(s, i + 5, IsSpace);
              && p > i + 5 && HasAtCi(s, p, "salary")
              && a.value == SpanWhile(s, p + 6, IsTotalSep)
  {
    if !HasAtCi(s, i, "total") then None
    else
      var p := SpanWhile(s, i + 5, IsSpace);
      if p == i + 5 || !HasAtCi(s, p, "salary") then None
      else Some(SpanWhile(s, p + 6, IsTotalSep))
  }

  /** `Total\s+Salary\s*[:\-\s]*Rs\.?\s*([0-9,]+)` ignoring case, at `i`: the run
      after the label, its separators and `Rs`. */
  function TotalSalaryAt(s: string, i: nat): (r: Option<string>)
    ensures r.Some? ==> HasAtCi(s, i, "total") && r.value != [] && AllAmountChars(r.value)
    ensures r.Some? ==> SalaryLabelEnd(s, i).Some?
  {
    match SalaryLabelEnd(s, i)
    case Some(j) => RsAmountAt(s, j, true)
    case None => None
  }

  /** The total salary is the run after the label, the separators, `Rs`, an
      optional dot and white space. */
  lemma TotalSalaryAtCaptures(s: string, i: nat)
    requires TotalSalaryAt(s, i).Some?
    ensures var j := SalaryLabelEnd(s, i).value;
            RsAt(s, j, true) && CapturesAmount(s, j + 2, TotalSalaryAt(s, i).value)
  {
    RsAmountAtCaptures(s, SalaryLabelEnd(s, i).value, true);
  }

  /** `Total\s+([\d,]{5,})`, case as written, at `i`. */
  function TotalFigureAt(s: string, i: nat): (r: Option<string>)
    ensures r.Some? ==> HasAt(s, i, "Total") && |r.value| >= 5 && AllAmountChars(r.value)
    ensures r.Some? ==> var p := SpanWhile(s, i + 5, IsSpace);
              && p > i + 5 && p + |r.value| <= |s| && r.value == s[p..p + |r.value|]
              && (p + |r.value| == |s| || !IsAmountChar(s[p + |r.value|]))
  {
    if !HasAt(s, i, "Total") then None
    else
      var p := SpanWhile(s, i + 5, IsSpace);
      var e := SpanWhile(s, p, IsAmountChar);
      if p > i + 5 && e - p >= 5 then Some(s[p..e]) else None
  }

  /** `([\d,]{4,})` at `j`: the greedy run of digits and commas, if four long. */
  function FigureRunAt(s: string, j: nat): (r: Option<string>)
    ensures r.Some? ==> j + |r.value| <= |s| && r.value == s[j..j + |r.value|]
    ensures r.Some? ==> |r.value| >= 4 && AllAmountChars(r.value)
    ensures r.Some? ==> j + |r.value| == |s| || !IsAmountChar(s[j + |r.value|])
  {
    if j <= |s| then
      var e := SpanWhile(s, j, IsAmountChar);
      if e - j >= 4 then Some(s[j..e]) else None
    else None
  }

  const ChargeableHead: string := "income chargeable under the head"

  /** `Income chargeable under the head.*?([\d,]{4,})` ignoring case, dot
      matching newlines, at `i`: the lazy gap stops at the first position after
      the phrase where a run of four or more digits and commas starts. */
  function TaxableAt(s: string, i: nat): (r: Option<string>)
    ensures r.Some? ==> HasAtCi(s, i, ChargeableHead)
    ensures r.Some? ==> exists j :: i + |ChargeableHead| <= j <= |s| && FigureRunAt(s, j) == r
                          && forall k :: i + |ChargeableHead| <= k < j ==> FigureRunAt(s, k).None?
  {
    if !HasAtCi(s, i, ChargeableHead) then None
    else
      match FirstFrom(s, i + |ChargeableHead|, FigureRunAt)
      case Some((_, run)) => Some(run)
      case None => None
  }

  /** `parse_form16`: the labelled total salary, else a bare `Total` figure,
      and the taxable income; a capture without a digit raises. */
  function ParseForm16(text: string): (r: Result<Form16Fields>)
    ensures r.Err? <==>
      || (Search(text, TotalSalaryAt).Some? && !HasDigit(Search(text, TotalSalaryAt).value))
      || (Search(text, TotalSalaryAt).None? && Search(text, TotalFigureAt).Some?
          && !HasDigit(Search(text, TotalFigureAt).value))
      || (Search(text, TaxableAt).Some? && !HasDigit(Search(text, TaxableAt).value))
    ensures r.Ok? ==> (r.value.totalSalary.Some? <==>
                        exists i :: 0 <= i <= |text| && (TotalSalaryAt(text, i).Some? || TotalFigureAt(text, i).Some?))
    ensures r.Ok? ==> (r.value.taxableIncome.Some? <==> exists i :: 0 <= i <= |text| && TaxableAt(text, i).Some?)
    ensures r.Ok? && Search(text, TotalSalaryAt).Some? ==>
              r.value.totalSalary.Some? && Amount(Search(text, TotalSalaryAt).value) == Ok(r.value.totalSalary.value)
    ensures r.Ok? && Search(text, TotalSalaryAt).None? && Search(text, TotalFigureAt).Some? ==>
              r.value.totalSalary.Some? && Amount(Search(text, TotalFigureAt).value) == Ok(r.value.totalSalary.value)
    ensures r.Ok? && Search(text, TaxableAt).Some? ==>
              r.value.taxableIncome.Some? && Amount(Search(text, TaxableAt).value) == Ok(r.value.taxableIncome.value)
  {
    var total := match Search(text, TotalSalaryAt)
      case Some(run) => Some(run)
      case None => Search(text, TotalFigureAt);
    match OptionalAmount(total)
    case Err(e) => Err(e)
    case Ok(salary) =>
      match OptionalAmount(Search(text, TaxableAt))
      case Err(e) => Err(e)
      case Ok(taxable) => Ok(Form16Fields(salary, taxable))
  }

  // ------------------------------------------------------------ Salary slip

  /** The six components `parse_salary_slip` looks for, under their dict keys
      'Basic', 'HRA', 'Special Allowance', 'Gross', 'Net Pay' and 'PF'. */
  datatype Component = Basic | Hra | SpecialAllowance | Gross | NetPay | ProvidentFund

  /** The order of the pattern dict, which is the order of the loop. */
  const ComponentOrder: seq<Component> := [Basic, Hra, SpecialAllowance, Gross, NetPay, ProvidentFund]

  /** Where the component's label ends when it starts at `i`, ignoring case. At
      each position the label alternatives exclude one another, and a longer
      optional part that is present is always the one that can succeed. */
  function LabelEnd(c: Component, s: string, i: nat): (e: Option<nat>)
    ensures e.Some? ==> i < e.value <= |s|
  {
    match c
    case Basic => if HasAtCi(s, i, "basic") then Some(i + 5) else None
    case Hra => if HasAtCi(s, i, "hra") then Some(i + 3) else None
    case SpecialAllowance =>
      if HasAtCi(s, i, "special allowance") then Some(i + 17)
      else if HasAtCi(s, i, "spl") then
        var p := if i + 3 < |s| && s[i + 3] == '.' then i + 4 else i + 3;
        if HasAtCi(s, p, " allowance") then Some(p + 10) else None
      else None
    case Gross =>
      if !HasAtCi(s, i, "gross") then None
      else if HasAtCi(s, i + 5, " salary") then Some(i + 12)
      else Some(i + 5)
    case NetPay =>
      if HasAtCi(s, i, "net pay") then Some(i + 7)
      else if HasAtCi(s, i, "net salary") then Some(i + 10)
      else None
    case ProvidentFund =>
      if HasAtCi(s, i, "provident fund") then Some(i + 14)
      else if HasAtCi(s, i, "pf") then Some(i + 2)
      else None
  }

  /** The component's whole pattern at `i`: its label, then
      `\s*[:\-]?\s*Rs\.?\s*([0-9,]+)`; the result is the amount group. */
  function ComponentAt(c: Component, s: string, i: nat): (r: Option<string>)
    ensures r.Some? ==> LabelEnd(c, s, i).Some? && r.value != [] && AllAmountChars(r.value)
  {
    LabelledAmount(s, LabelEnd(c, s, i))
  }

  /** A component's capture is the run after its label, the separators, `Rs`,
      an optional dot and white space. */
  lemma ComponentAtCaptures(c: Component, s: string, i: nat)
    requires ComponentAt(c, s, i).Some?
    ensures LabelEnd(c, s, i).Some?
    ensures var j := LabelSep(s, LabelEnd(c, s, i).value);
            RsAt(s, j, true) && CapturesAmount(s, j + 2, ComponentAt(c, s, i).value)
  {
    LabelledAmountCaptures(s, LabelEnd(c, s, i));
  }

  /** The amount captured by the component's `re.search`, if any. */
  function Labelled(c: Component, text: string): Option<string>
  {
    Search(text, (s: string, i: nat) => ComponentAt(c, s, i))
  }

  /** The loop over the components `cs`: each matched component is stored with
      its amount; the first amount that is not a number raises. */
  function LabelledComponents(text: string, cs: seq<Component>): Result<map<Component, nat>>
    decreases |cs|
  {
    if cs == [] then Ok(map[])
    else
      match LabelledComponents(text, cs[..|cs| - 1])
      case Err(e) => Err(e)
      case Ok(m) =>
        var c := cs[|cs| - 1];
        match Labelled(c, text)
        case None => Ok(m)
        case Some(run) =>
          match Amount(run)
          case Err(e) => Err(e)
          case Ok(v) => Ok(m[c := v])
  }

  /** The loop raises exactly when some listed component's capture has no
      digit; otherwise a component is a key exactly when it is listed and its
      pattern matched, with the capture's value. */
  lemma {:induction false} LabelledComponentsMeaning(text: string, cs: seq<Component>)
    ensures LabelledComponents(text, cs).Err? <==>
              exists c :: c in cs && Labelled(c, text).Some? && !HasDigit(Labelled(c, text).value)
    ensures LabelledComponents(text, cs).Ok? ==>
              forall c :: (c in LabelledComponents(text, cs).value <==> c in cs && Labelled(c, text).Some?)
    ensures LabelledComponents(text, cs).Ok? ==>
              forall c :: c in LabelledComponents(text, cs).value ==>
                Amount(Labelled(c, text).value) == Ok(LabelledComponents(text, cs).value[c])
    decreases |cs|
  {
    if cs != [] {
      var init, c := cs[..|cs| - 1], cs[|cs| - 1];
      LabelledComponentsMeaning(text, init);
      assert forall x :: x in cs <==> x in init || x == c;
      match LabelledComponents(text, init)
      case Err(_) =>
      case Ok(m) =>
        match Labelled(c, text)
        case None =>
          assert LabelledComponents(text, cs) == Ok(m);
        case Some(run) =>
          match Amount(run)
          case Err(_) =>
          case Ok(v) =>
            assert LabelledComponents(text, cs) == Ok(m[c := v]);
    }
  }

  /** A component pattern that matches earlier in the loop, with a capture that
      is not a number, makes the whole loop raise. */
  lemma {:induction false} LabelledComponentsErr(text: string, cs: seq<Component>, k: nat)
    requires k <= |cs| && LabelledComponents(text, cs[..k]).Err?
    ensures LabelledComponents(text, cs).Err?
    decreases |cs|
  {
    if k < |cs| {
      assert cs[..|cs| - 1][..k] == cs[..k];
      LabelledComponentsErr(text, cs[..|cs| - 1], k);
    } else {
      assert cs[..k] == cs;
    }
  }

  /** `Rs\.?\s*([0-9,]{3,})`, case as written, at `j`: the match end and capture. */
  function RsFigureAt(s: string, j: nat): Option<(nat, string)>
  {
    RsRunAt(s, j, false, 3)
  }

  /** `re.findall(r"Rs\.?\s*([0-9,]{3,})", s[i:])`: the captures of the
      successive non-overlapping matches from `i` on. */
  function FindAllRsFigures(s: string, i: nat): (nums: seq<string>)
    requires i <= |s|
    ensures forall k :: 0 <= k < |nums| ==> |nums[k]| >= 3 && AllAmountChars(nums[k])
    decreases |s| - i
  {
    match FirstFrom(s, i, RsFigureAt)
    case None => []
    case Some((_, (e, run))) => [run] + FindAllRsFigures(s, e)
  }

  /** No match of the figure pattern starts inside another: only the first
      character of a match is an `R`. */
  lemma NoMatchInside(s: string, j: nat, k: nat)
    requires RsFigureAt(s, j).Some? && j < k < RsFigureAt(s, j).value.0
    ensures RsFigureAt(s, k).None?
  {
    assert s[k] != 'R';
  }

  /** The findall list is empty exactly when there is no match from `i` on. */
  lemma NoFigures(s: string, i: nat)
    requires i <= |s|
    ensures FindAllRsFigures(s, i) == [] <==> forall j :: i <= j <= |s| ==> RsFigureAt(s, j).None?
  {
    match FirstFrom(s, i, RsFigureAt)
    case None =>
    case Some((j0, _)) => assert RsFigureAt(s, j0).Some?;
  }

  /** A match of the figure pattern at `j`, and none after it. */
  predicate LastMatchAt(s: string, j: nat)
  {
    j <= |s| && RsFigureAt(s, j).Some? && forall k :: j < k <= |s| ==> RsFigureAt(s, k).None?
  }

  /** The last entry of a non-empty findall list is the capture of the match
      that starts last. */
  lemma {:induction false} LastFigureIsLastMatch(s: string, i: nat) returns (j: nat)
    requires i <= |s| && FindAllRsFigures(s, i) != []
    ensures i <= j && LastMatchAt(s, j)
    ensures RsFigureAt(s, j).value.1 == FindAllRsFigures(s, i)[|FindAllRsFigures(s, i)| - 1]
    decreases |s| - i
  {
    match FirstFrom(s, i, RsFigureAt)
    case Some((j0, (e, run))) =>
      var rest := FindAllRsFigures(s, e);
      assert FindAllRsFigures(s, i) == [run] + rest;
      if rest == [] {
        NoFigures(s, e);
        forall k | j0 < k <= |s| ensures RsFigureAt(s, k).None? {
          if k < e {
            NoMatchInside(s, j0, k);
          }
        }
        j := j0;
      } else {
        j := LastFigureIsLastMatch(s, e);
        assert FindAllRsFigures(s, i)[|FindAllRsFigures(s, i)| - 1] == rest[|rest| - 1];
      }
  }

  /** `parse_salary_slip` as a value: the labelled components, then the last
      `Rs` figure as 'Net Pay' when no Net Pay label matched. */
  function SalarySlip(text: string): Result<map<Component, nat>>
  {
    match LabelledComponents(text, ComponentOrder)
    case Err(e) => Err(e)
    case Ok(m) =>
      var nums := FindAllRsFigures(text, 0);
      if NetPay !in m && nums != [] then
        match Amount(nums[|nums| - 1])
        case Err(e) => Err(e)
        case Ok(v) => Ok(m[NetPay := v])
      else Ok(m)
  }

  /** The loop of `parse_salary_slip` over the patterns `cs`, filling the
      component dict; an amount that is not a number raises. */
  method FillComponents(text: string, cs: seq<Component>) returns (r: Result<map<Component, nat>>)
    ensures r == LabelledComponents(text, cs)
  {
    var comps: map<Component, nat> := map[];
    for i := 0 to |cs|
      invariant LabelledComponents(text, cs[..i]) == Ok(comps)
    {
      var c := cs[i];
      assert cs[..i + 1][..i] == cs[..i];
      match Labelled(c, text)
      case None =>
      case Some(run) =>
        var amount := Amount(run);
        if amount.Err? {
          LabelledComponentsErr(text, cs, i + 1);
          return Err(amount.error);
        }
        comps := comps[c := amount.value];
    }
    assert cs[..|cs|] == cs;
    r := Ok(comps);
  }

  /** `parse_salary_slip`: the labelled components, then the findall fallback. */
  method ParseSalarySlip(text: string) returns (r: Result<map<Component, nat>>)
    ensures r == SalarySlip(text)
  {
    r := FillComponents(text, ComponentOrder);
    if r.Err? {
      return;
    }
    var nums := FindAllRsFigures(text, 0);
    if NetPay !in r.value && nums != [] {
      var amount := Amount(nums[|nums| - 1]);
      if amount.Err? {
        return Err(amount.error);
      }
      r := Ok(r.value[NetPay := amount.value]);
    }
  }

  /** 'Net Pay' comes from the labelled pattern when it matched. */
  lemma SalarySlipNetPay(text: string)
    requires SalarySlip(text).Ok?
    ensures Labelled(NetPay, text).Some? ==>
              NetPay in SalarySlip(text).value && Amount(Labelled(NetPay, text).value) == Ok(SalarySlip(text).value[NetPay])
  {
    ComponentsRaise(text);
    assert LabelledComponents(text, ComponentOrder).Ok?;
    if Labelled(NetPay, text).Some? {
      assert SalarySlip(text) == Ok(LabelledComponents(text, ComponentOrder).value);
    }
  }

  /** Without a 'Net Pay' label, the amount comes from the last `Rs` figure of
      the slip, which is the one that starts last; with no figure either, there
      is no 'Net Pay'. */
  lemma SalarySlipNetPayFallback(text: string)
    requires SalarySlip(text).Ok? && Labelled(NetPay, text).None?
    ensures NetPay in SalarySlip(text).value <==> exists j :: 0 <= j <= |text| && RsFigureAt(text, j).Some?
    ensures NetPay in SalarySlip(text).value ==>
              exists j :: LastMatchAt(text, j) && Amount(RsFigureAt(text, j).value.1) == Ok(SalarySlip(text).value[NetPay])
  {
    ComponentsRaise(text);
    assert LabelledComponents(text, ComponentOrder).Ok?;
    if FindAllRsFigures(text, 0) != [] {
      var j := LastFigureIsLastMatch(text, 0);
    } else {
      NoFigures(text, 0);
    }
  }

  /** Every component other than 'Net Pay' is present exactly when its own
      pattern matched, with the amount of that capture. */
  lemma SalarySlipComponents(text: string)
    requires SalarySlip(text).Ok?
    ensures forall c :: c != NetPay ==> (c in SalarySlip(text).value <==> Labelled(c, text).Some?)
    ensures forall c :: c != NetPay && c in SalarySlip(text).value ==>
              Amount(Labelled(c, text).value) == Ok(SalarySlip(text).value[c])
  {
    LabelledComponentsMeaning(text, ComponentOrder);
    EveryComponentListed();
    assert LabelledComponents(text, ComponentOrder).Ok?;
    var m, slip := LabelledComponents(text, ComponentOrder).value, SalarySlip(text).value;
    assert forall c :: c != NetPay ==> (c in slip <==> c in m) && (c in m ==> slip[c] == m[c]);
  }

  /** Some component label matches with a capture that has no digit. */
  ghost predicate DigitlessLabel(text: string)
  {
    exists c :: Labelled(c, text).Some? && !HasDigit(Labelled(c, text).value)
  }

  /** The `Rs` figure that starts last captures a run without a digit. */
  ghost predicate DigitlessLastFigure(text: string)
  {
    exists j :: LastMatchAt(text, j) && !HasDigit(RsFigureAt(text, j).value.1)
  }

  /** The component loop raises exactly when some component's capture has no
      digit; when it does not, 'Net Pay' is in its dict exactly when that
      label matched. */
  lemma ComponentsRaise(text: string)
    ensures LabelledComponents(text, ComponentOrder).Err? <==> DigitlessLabel(text)
    ensures LabelledComponents(text, ComponentOrder).Ok? ==>
              (NetPay in LabelledComponents(text, ComponentOrder).value <==> Labelled(NetPay, text).Some?)
    ensures LabelledComponents(text, ComponentOrder).Ok? && Labelled(NetPay, text).Some? ==>
              Amount(Labelled(NetPay, text).value) == Ok(LabelledComponents(text, ComponentOrder).value[NetPay])
  {
    LabelledComponentsMeaning(text, ComponentOrder);
    EveryComponentListed();
  }

  /** The last findall entry has no digit exactly when the match that starts
      last captures a run without one. */
  lemma LastFigureDigitless(text: string)
    ensures DigitlessLastFigure(text) <==>
              var nums := FindAllRsFigures(text, 0);
              nums != [] && !HasDigit(nums[|nums| - 1])
  {
    var nums := FindAllRsFigures(text, 0);
    NoFigures(text, 0);
    if nums != [] {
      var j := LastFigureIsLastMatch(text, 0);
      forall j' | LastMatchAt(text, j') ensures j' == j {
      }
    } else {
      assert forall j :: LastMatchAt(text, j) ==> RsFigureAt(text, j).Some?;
    }
  }

  /** `parse_salary_slip` raises exactly when a component label's capture has
      no digit, or no Net Pay label matched and the last `Rs` figure of the
      text has no digit. */
  lemma SalarySlipRaises(text: string)
    ensures SalarySlip(text).Err? <==>
              DigitlessLabel(text) || (Labelled(NetPay, text).None? && DigitlessLastFigure(text))
  {
    ComponentsRaise(text);
    LastFigureDigitless(text);
  }

  /** The loop visits every component. */
  lemma EveryComponentListed()
    ensures forall c :: c in ComponentOrder
  {
    forall c ensures c in ComponentOrder {
      match c
      case Basic => assert ComponentOrder[0] == c;
      case Hra => assert ComponentOrder[1] == c;
      case SpecialAllowance => assert ComponentOrder[2] == c;
      case Gross => assert ComponentOrder[3] == c;
      case NetPay => assert ComponentOrder[4] == c;
      case ProvidentFund => assert ComponentOrder[5] == c;
    }
  }
}
