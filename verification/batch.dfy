/** The per-file loop of the assessment page: each uploaded document's text is
    classified, routed to the extractors by its tags or its file name, and the
    results are kept in the `parsed_docs` record. */
module Batch {
  import opened Wrappers
  import opened Text
  import Classifier
  import opened Identity
  import opened Income
  import opened Statements

  /** An uploaded file: its name and the text extracted from it. */
  datatype Document = Document(name: string, text: string)

  /** `parsed_docs`: one slot per document kind; `None` is the initial `None`. */
  datatype ParsedDocs = ParsedDocs(
    pan: Option<PanFields>,
    aadhaar: Option<AadhaarFields>,
    form16: Option<Form16Fields>,
    salarySlips: seq<map<Component, nat>>,
    bank: seq<Statement>,
    cibil: Option<CibilFields>,
    employment: Option<string>,
    property: Option<string>)

  const NoDocs: ParsedDocs := ParsedDocs(None, None, None, [], [], None, None, None)

  // Routing. The classifier never produces a "FORM-16" tag, so that test of
  // the source adds nothing and is not repeated here.

  predicate ToPan(d: Document) { Classifier.Pan in Classifier.DocTypes(d.text) }

  predicate ToAadhaar(d: Document) { Classifier.Aadhaar in Classifier.DocTypes(d.text) }

  predicate ToForm16(d: Document)
  {
    Classifier.Form16 in Classifier.DocTypes(d.text) || Contains(Lower(d.name), "form-16")
  }

  predicate ToSalarySlip(d: Document)
  {
    Classifier.SalarySlip in Classifier.DocTypes(d.text) || Contains(Lower(d.name), "salary")
  }

  predicate ToBank(d: Document)
  {
    Classifier.BankStatement in Classifier.DocTypes(d.text) || Contains(Lower(d.name), "statement")
  }

  predicate ToCibil(d: Document)
  {
    Classifier.Cibil in Classifier.DocTypes(d.text) || Contains(Lower(d.name), "cibil")
  }

  predicate ToEmployment(d: Document)
  {
    || Classifier.Employment in Classifier.DocTypes(d.text)
    || Contains(Lower(d.name), "offer") || Contains(Lower(d.name), "appointment")
  }

  /** `"sale deed" in txt.lower()`. */
  predicate MentionsSaleDeed(text: string) { Contains(Lower(text), "sale deed") }

  predicate ToProperty(d: Document)
  {
    Classifier.Property in Classifier.DocTypes(d.text) || MentionsSaleDeed(d.text)
  }

  function Form16Slot(d: Document, current: Option<Form16Fields>): Result<Option<Form16Fields>>
  {
    if !ToForm16(d) then Ok(current)
    else
      match ParseForm16(d.text)
      case Err(e) => Err(e)
      case Ok(f) => Ok(Some(f))
  }

  function SlipsSlot(d: Document, slips: seq<map<Component, nat>>): Result<seq<map<Component, nat>>>
  {
    if !ToSalarySlip(d) then Ok(slips)
    else
      match SalarySlip(d.text)
      case Err(e) => Err(e)
      case Ok(m) => Ok(slips + [m])
  }

  function BankSlot(d: Document, bank: seq<Statement>): Result<seq<Statement>>
  {
    if !ToBank(d) then Ok(bank)
    else
      match BankStatement(d.text)
      case Err(e) => Err(e)
      case Ok(b) => Ok(bank + [b])
  }

  /** The slots the loop body replaces without any chance of raising. */
  function Replaced(d: Document, docs: ParsedDocs): ParsedDocs
  {
    docs.(
      pan := if ToPan(d) then Some(ParsePan(d.text)) else docs.pan,
      aadhaar := if ToAadhaar(d) then Some(ParseAadhaar(d.text)) else docs.aadhaar,
      cibil := if ToCibil(d) then Some(Cibil(d.text)) else docs.cibil,
      employment := if ToEmployment(d) then Some(d.text) else docs.employment,
      property := if ToProperty(d) then Some(d.text) else docs.property)
  }

  /** One pass of the loop body: the single-document slots are replaced, the
      slip and statement lists are appended to; an extractor that raises ends
      the batch. */
  function Step(d: Document, docs: ParsedDocs): Result<ParsedDocs>
  {
    match Form16Slot(d, docs.form16)
    case Err(e) => Err(e)
    case Ok(form16) =>
      match SlipsSlot(d, docs.salarySlips)
      case Err(e) => Err(e)
      case Ok(slips) =>
        match BankSlot(d, docs.bank)
        case Err(e) => Err(e)
        case Ok(bank) => Ok(Replaced(d, docs).(form16 := form16, salarySlips := slips, bank := bank))
  }

  /** The whole loop over `files`, in upload order. */
  function Fold(files: seq<Document>): Result<ParsedDocs>
    decreases |files|
  {
    if files == [] then Ok(NoDocs)
    else
      match Fold(files[..|files| - 1])
      case Err(e) => Err(e)
      case Ok(docs) => Step(files[|files| - 1], docs)
  }

  /** `combined_text`: every document's text, each after a blank line. */
  function CombinedText(files: seq<Document>): (t: string)
    ensures |t| >= 2 * |files|
    decreases |files|
  {
    if files == [] then "" else CombinedText(files[..|files| - 1]) + "\n\n" + files[|files| - 1].text
  }

  /** Each document's text appears in the combined text right after a blank
      line, and what comes before it is the combined text of the documents
      uploaded before it. */
  lemma {:induction false} CombinedTextHolds(files: seq<Document>, k: nat) returns (p: nat)
    requires k < |files|
    ensures p + 2 + |files[k].text| <= |CombinedText(files)|
    ensures CombinedText(files)[..p] == CombinedText(files[..k])
    ensures CombinedText(files)[p..p + 2] == "\n\n"
    ensures CombinedText(files)[p + 2..p + 2 + |files[k].text|] == files[k].text
    decreases |files|
  {
    var init := files[..|files| - 1];
    var t, before := CombinedText(files), CombinedText(init);
    assert t == before + "\n\n" + files[|files| - 1].text;
    if k == |files| - 1 {
      p := |before|;
      assert init == files[..k];
    } else {
      p := CombinedTextHolds(init, k);
      assert init[k] == files[k];
      assert init[..k] == files[..k];
      var e := p + 2 + |files[k].text|;
      assert t[..p] == before[..p];
      assert t[p..p + 2] == before[p..p + 2];
      assert t[p + 2..e] == before[p + 2..e];
    }
  }

  /** The Form-16 branch of the loop body. */
  method RouteForm16(d: Document, types: set<Classifier.Tag>, current: Option<Form16Fields>)
    returns (r: Result<Option<Form16Fields>>)
    requires types == Classifier.DocTypes(d.text)
    ensures r == Form16Slot(d, current)
  {
    r := Ok(current);
    if Classifier.Form16 in types || Contains(Lower(d.name), "form-16") {
      var f := ParseForm16(d.text);
      if f.Err? {
        return Err(f.error);
      }
      r := Ok(Some(f.value));
    }
  }

  /** The salary-slip branch of the loop body. */
  method RouteSalarySlip(d: Document, types: set<Classifier.Tag>, slips: seq<map<Component, nat>>)
    returns (r: Result<seq<map<Component, nat>>>)
    requires types == Classifier.DocTypes(d.text)
    ensures r == SlipsSlot(d, slips)
  {
    r := Ok(slips);
    if Classifier.SalarySlip in types || Contains(Lower(d.name), "salary") {
      var s := ParseSalarySlip(d.text);
      if s.Err? {
        return Err(s.error);
      }
      r := Ok(slips + [s.value]);
    }
  }

  /** The bank-statement branch of the loop body. */
  method RouteBankStatement(d: Document, types: set<Classifier.Tag>, bank: seq<Statement>)
    returns (r: Result<seq<Statement>>)
    requires types == Classifier.DocTypes(d.text)
    ensures r == BankSlot(d, bank)
  {
    r := Ok(bank);
    if Classifier.BankStatement in types || Contains(Lower(d.name), "statement") {
      var b := ParseBankStatement(d.text);
      if b.Err? {
        return Err(b.error);
      }
      r := Ok(bank + [b.value]);
    }
  }

  /** The branches of the loop body that cannot raise. */
  method ReplaceSlots(d: Document, types: set<Classifier.Tag>, docs: ParsedDocs) returns (next: ParsedDocs)
    requires types == Classifier.DocTypes(d.text)
    ensures next == Replaced(d, docs)
  {
    var name := Lower(d.name);
    var pan, aadhaar, cibil, employment, property := docs.pan, docs.aadhaar, docs.cibil, docs.employment, docs.property;
    if Classifier.Pan in types {
      pan := Some(ParsePan(d.text));
    }
    if Classifier.Aadhaar in types {
      aadhaar := Some(ParseAadhaar(d.text));
    }
    if Classifier.Cibil in types || Contains(name, "cibil") {
      var c := ParseCibil(d.text);
      cibil := Some(c);
    }
    if Classifier.Employment in types || Contains(name, "offer") || Contains(name, "appointment") {
      employment := Some(d.text);
    }
    if Classifier.Property in types || MentionsSaleDeed(d.text) {
      property := Some(d.text);
    }
    next := docs.(pan := pan, aadhaar := aadhaar, cibil := cibil, employment := employment, property := property);
  }

  /** The loop body, with the document's tags computed once. */
  method RouteDocument(d: Document, docs: ParsedDocs) returns (r: Result<ParsedDocs>)
    ensures r == Step(d, docs)
  {
    var types := Classifier.DetectDocTypes(d.text);
    var form16 := RouteForm16(d, types, docs.form16);
    if form16.Err? {
      return Err(form16.error);
    }
    var slips := RouteSalarySlip(d, types, docs.salarySlips);
    if slips.Err? {
      return Err(slips.error);
    }
    var bank := RouteBankStatement(d, types, docs.bank);
    if bank.Err? {
      return Err(bank.error);
    }
    var next := ReplaceSlots(d, types, docs);
    r := Ok(next.(form16 := form16.value, salarySlips := slips.value, bank := bank.value));
  }

  lemma {:induction false} FoldErr(files: seq<Document>, k: nat)
    requires k <= |files| && Fold(files[..k]).Err?
    ensures Fold(files).Err?
    decreases |files|
  {
    if k < |files| {
      assert files[..|files| - 1][..k] == files[..k];
      FoldErr(files[..|files| - 1], k);
    } else {
      assert files[..k] == files;
    }
  }

  /** The upload loop: routes every file and accumulates the combined text. */
  method FoldDocuments(files: seq<Document>) returns (r: Result<ParsedDocs>, combined: string)
    ensures r == Fold(files)
    ensures r.Ok? ==> combined == CombinedText(files)
  {
    var docs := NoDocs;
    combined := "";
    for i := 0 to |files|
      invariant Fold(files[..i]) == Ok(docs)
      invariant combined == CombinedText(files[..i])
    {
      assert files[..i + 1][..i] == files[..i];
      combined := combined + "\n\n" + files[i].text;
      var next := RouteDocument(files[i], docs);
      if next.Err? {
        FoldErr(files, i + 1);
        return next, combined;
      }
      docs := next.value;
    }
    assert files[..|files|] == files;
    r := Ok(docs);
  }

  // What the loop keeps, stated without the loop.

  /** The index of the last file satisfying `p`. */
  function LastWhere(files: seq<Document>, p: Document -> bool): (k: Option<nat>)
    ensures k.Some? ==> k.value < |files| && p(files[k.value]) && forall j :: k.value < j < |files| ==> !p(files[j])
    ensures k.None? ==> forall j :: 0 <= j < |files| ==> !p(files[j])
    decreases |files|
  {
    if files == [] then None
    else if p(files[|files| - 1]) then Some(|files| - 1)
    else LastWhere(files[..|files| - 1], p)
  }

  /** A pass that does not raise replaces the single-document slots of the
      files routed to them and leaves the others alone. */
  lemma StepReplaces(d: Document, docs: ParsedDocs)
    requires Step(d, docs).Ok?
    ensures Step(d, docs).value.pan == Replaced(d, docs).pan
    ensures Step(d, docs).value.aadhaar == Replaced(d, docs).aadhaar
    ensures Step(d, docs).value.cibil == Replaced(d, docs).cibil
    ensures Step(d, docs).value.employment == Replaced(d, docs).employment
    ensures Step(d, docs).value.property == Replaced(d, docs).property
    ensures Step(d, docs).value.form16 == if ToForm16(d) then Some(ParseForm16(d.text).value) else docs.form16
  {
  }

  /** A pass that does not raise appends the parsed slip and statement of a file
      routed to them, and nothing else, to the two lists. */
  lemma StepAppends(d: Document, docs: ParsedDocs)
    requires Step(d, docs).Ok?
    ensures ToSalarySlip(d) ==> SalarySlip(d.text).Ok?
    ensures ToBank(d) ==> BankStatement(d.text).Ok?
    ensures Step(d, docs).value.salarySlips ==
              docs.salarySlips + (if ToSalarySlip(d) then [SalarySlip(d.text).value] else [])
    ensures Step(d, docs).value.bank == docs.bank + (if ToBank(d) then [BankStatement(d.text).value] else [])
  {
  }

  /** A slot that starts empty and that each pass of the loop sets, for a file
      routed to it, to what `parse` makes of the file, leaving it alone
      otherwise. */
  ghost predicate ReplacedBy<T>(slot: ParsedDocs -> Option<T>, routed: Document -> bool, parse: Document -> T)
  {
    && slot(NoDocs) == None
    && forall d, docs :: Step(d, docs).Ok? ==>
         slot(Step(d, docs).value) == (if routed(d) then Some(parse(d)) else slot(docs))
  }

  /** Such a slot ends up holding what was made of the last file routed to it. */
  lemma {:induction false} LastWins<T>(files: seq<Document>, slot: ParsedDocs -> Option<T>,
                                       routed: Document -> bool, parse: Document -> T)
    requires ReplacedBy(slot, routed, parse) && Fold(files).Ok?
    ensures slot(Fold(files).value) ==
              match LastWhere(files, routed) case None => None case Some(k) => Some(parse(files[k]))
    decreases |files|
  {
    if files != [] {
      var init := files[..|files| - 1];
      LastWins(init, slot, routed, parse);
      match LastWhere(init, routed)
      case None =>
      case Some(k) => assert files[k] == init[k];
    }
  }

  /** The Form-16 fields of a file whose extraction does not raise. */
  function Form16Of(d: Document): Form16Fields
  {
    match ParseForm16(d.text)
    case Ok(f) => f
    case Err(_) => Form16Fields(None, None)
  }

  // Each single-document slot holds what the extractor made of the last file
  // routed to it, or nothing if no file was.

  /** The PAN card slot is the last PAN card routed. */
  lemma LastPanWins(files: seq<Document>)
    requires Fold(files).Ok?
    ensures Fold(files).value.pan ==
              (match LastWhere(files, ToPan) case None => None case Some(k) => Some(ParsePan(files[k].text)))
  {
    forall d, docs | Step(d, docs).Ok? ensures Step(d, docs).value.pan == (if ToPan(d) then Some(ParsePan(d.text)) else docs.pan) {
      StepReplaces(d, docs);
    }
    LastWins(files, (p: ParsedDocs) => p.pan, ToPan, (d: Document) => ParsePan(d.text));
  }

  /** The Aadhaar card slot is the last Aadhaar card routed. */
  lemma LastAadhaarWins(files: seq<Document>)
    requires Fold(files).Ok?
    ensures Fold(files).value.aadhaar ==
              (match LastWhere(files, ToAadhaar) case None => None case Some(k) => Some(ParseAadhaar(files[k].text)))
  {
    forall d, docs | Step(d, docs).Ok? ensures Step(d, docs).value.aadhaar == (if ToAadhaar(d) then Some(ParseAadhaar(d.text)) else docs.aadhaar) {
      StepReplaces(d, docs);
    }
    LastWins(files, (p: ParsedDocs) => p.aadhaar, ToAadhaar, (d: Document) => ParseAadhaar(d.text));
  }

  /** The Form-16 slot is the last Form-16 routed. */
  lemma LastForm16Wins(files: seq<Document>)
    requires Fold(files).Ok?
    ensures Fold(files).value.form16 ==
              (match LastWhere(files, ToForm16) case None => None case Some(k) => Some(Form16Of(files[k])))
  {
    forall d, docs | Step(d, docs).Ok? ensures Step(d, docs).value.form16 == (if ToForm16(d) then Some(Form16Of(d)) else docs.form16) {
      StepReplaces(d, docs);
    }
    LastWins(files, (p: ParsedDocs) => p.form16, ToForm16, (d: Document) => Form16Of(d));
  }

  /** The CIBIL report slot is the last CIBIL report routed. */
  lemma LastCibilWins(files: seq<Document>)
    requires Fold(files).Ok?
    ensures Fold(files).value.cibil ==
              (match LastWhere(files, ToCibil) case None => None case Some(k) => Some(Cibil(files[k].text)))
  {
    forall d, docs | Step(d, docs).Ok? ensures Step(d, docs).value.cibil == (if ToCibil(d) then Some(Cibil(d.text)) else docs.cibil) {
      StepReplaces(d, docs);
    }
    LastWins(files, (p: ParsedDocs) => p.cibil, ToCibil, (d: Document) => Cibil(d.text));
  }

  /** The employment proof slot is the last employment proof routed. */
  lemma LastEmploymentWins(files: seq<Document>)
    requires Fold(files).Ok?
    ensures Fold(files).value.employment ==
              (match LastWhere(files, ToEmployment) case None => None case Some(k) => Some(files[k].text))
  {
    forall d, docs | Step(d, docs).Ok? ensures Step(d, docs).value.employment == (if ToEmployment(d) then Some(d.text) else docs.employment) {
      StepReplaces(d, docs);
    }
    LastWins(files, (p: ParsedDocs) => p.employment, ToEmployment, (d: Document) => d.text);
  }

  /** The property document slot is the last property document routed. */
  lemma LastPropertyWins(files: seq<Document>)
    requires Fold(files).Ok?
    ensures Fold(files).value.property ==
              (match LastWhere(files, ToProperty) case None => None case Some(k) => Some(files[k].text))
  {
    forall d, docs | Step(d, docs).Ok? ensures Step(d, docs).value.property == (if ToProperty(d) then Some(d.text) else docs.property) {
      StepReplaces(d, docs);
    }
    LastWins(files, (p: ParsedDocs) => p.property, ToProperty, (d: Document) => d.text);
  }

  /** A list that starts empty and that each pass of the loop extends, for a
      file routed to it, by what `parse` makes of the file, leaving it alone
      otherwise. */
  ghost predicate AppendedBy<T>(list: ParsedDocs -> seq<T>, routed: Document -> bool, parse: Document -> Result<T>)
  {
    && list(NoDocs) == []
    && forall d, docs :: Step(d, docs).Ok? ==>
         && (routed(d) ==> parse(d).Ok?)
         && list(Step(d, docs).value) == list(docs) + (if routed(d) then [parse(d).value] else [])
  }

  /** Such a list holds one entry per file routed to it, in upload order. */
  lemma {:induction false} EveryRoutedKept<T>(files: seq<Document>, list: ParsedDocs -> seq<T>,
                                              routed: Document -> bool, parse: Document -> Result<T>)
    requires AppendedBy(list, routed, parse) && Fold(files).Ok?
    ensures |list(Fold(files).value)| == |Filter(files, routed)|
    ensures forall k :: 0 <= k < |Filter(files, routed)| ==> parse(Filter(files, routed)[k]) == Ok(list(Fold(files).value)[k])
    decreases |files|
  {
    if files != [] {
      var init, d := files[..|files| - 1], files[|files| - 1];
      EveryRoutedKept(init, list, routed, parse);
      var docs := Fold(init).value;
      var before, after := list(docs), list(Fold(files).value);
      assert after == before + (if routed(d) then [parse(d).value] else []);
      var w, wBefore := Filter(files, routed), Filter(init, routed);
      assert w == wBefore + (if routed(d) then [d] else []);
      forall k | 0 <= k < |w| ensures parse(w[k]) == Ok(after[k]) {
        if k < |wBefore| {
          assert w[k] == wBefore[k] && after[k] == before[k];
        }
      }
    }
  }

  /** The slip and statement lists hold one entry per file routed to them, in
      upload order. */
  lemma EveryRoutedFileKept(files: seq<Document>)
    requires Fold(files).Ok?
    ensures |Fold(files).value.salarySlips| == |Filter(files, ToSalarySlip)|
    ensures forall k :: 0 <= k < |Filter(files, ToSalarySlip)| ==>
              SalarySlip(Filter(files, ToSalarySlip)[k].text) == Ok(Fold(files).value.salarySlips[k])
    ensures |Fold(files).value.bank| == |Filter(files, ToBank)|
    ensures forall k :: 0 <= k < |Filter(files, ToBank)| ==>
              BankStatement(Filter(files, ToBank)[k].text) == Ok(Fold(files).value.bank[k])
  {
    forall d, docs | Step(d, docs).Ok?
      ensures ToSalarySlip(d) ==> SalarySlip(d.text).Ok?
      ensures ToBank(d) ==> BankStatement(d.text).Ok?
      ensures Step(d, docs).value.salarySlips ==
                docs.salarySlips + (if ToSalarySlip(d) then [SalarySlip(d.text).value] else [])
      ensures Step(d, docs).value.bank == docs.bank + (if ToBank(d) then [BankStatement(d.text).value] else [])
    {
      StepAppends(d, docs);
    }
    EveryRoutedKept(files, (p: ParsedDocs) => p.salarySlips, ToSalarySlip, (d: Document) => SalarySlip(d.text));
    EveryRoutedKept(files, (p: ParsedDocs) => p.bank, ToBank, (d: Document) => BankStatement(d.text));
  }

  /** A file whose routed extractors include one that raises. */
  predicate RaisesOnDoc(d: Document)
  {
    || (ToForm16(d) && ParseForm16(d.text).Err?)
    || (ToSalarySlip(d) && SalarySlip(d.text).Err?)
    || (ToBank(d) && BankStatement(d.text).Err?)
  }

  lemma StepRaises(d: Document, docs: ParsedDocs)
    ensures Step(d, docs).Err? <==> RaisesOnDoc(d)
  {
  }

  lemma {:induction false} RaisingDoc(files: seq<Document>) returns (k: nat)
    requires Fold(files).Err?
    ensures k < |files| && RaisesOnDoc(files[k])
    decreases |files|
  {
    var init := files[..|files| - 1];
    if Fold(init).Err? {
      k := RaisingDoc(init);
      assert files[k] == init[k];
    } else {
      StepRaises(files[|files| - 1], Fold(init).value);
      k := |files| - 1;
    }
  }

  lemma {:induction false} NoRaisingDoc(files: seq<Document>, k: nat)
    requires Fold(files).Ok? && k < |files|
    ensures !RaisesOnDoc(files[k])
    decreases |files|
  {
    var init := files[..|files| - 1];
    StepRaises(files[|files| - 1], Fold(init).value);
    if k < |files| - 1 {
      NoRaisingDoc(init, k);
    }
  }

  /** The batch fails exactly when some file makes a routed extractor raise. */
  lemma FoldRaises(files: seq<Document>)
    ensures Fold(files).Err? <==> exists k :: 0 <= k < |files| && RaisesOnDoc(files[k])
  {
    if Fold(files).Err? {
      var k := RaisingDoc(files);
    } else {
      forall k | 0 <= k < |files| ensures !RaisesOnDoc(files[k]) {
        NoRaisingDoc(files, k);
      }
    }
  }
}
