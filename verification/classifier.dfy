/** The document classifier (`detect_doc_types`): a text is given every tag one
    of whose keyword alternatives occurs in its lower-cased form. */
module Classifier {
  import opened Text

  datatype Tag = Pan | Aadhaar | SalarySlip | BankStatement | Form16 | Cibil | Employment | Property

  const AllTags: seq<Tag> := [Pan, Aadhaar, SalarySlip, BankStatement, Form16, Cibil, Employment, Property]

  /** The alternatives of each tag's regular expression, in source order. */
  function Signature(tag: Tag): seq<Keyword>
  {
    match tag
    case Pan => [Word("pan"), Phrase("income tax permanent account number"), Phrase("incometaxindiaefiling")]
    case Aadhaar => [Word("aadhaar"), Word("aadhar"), Word("uidai"), WordStart("unique identification")]
    case SalarySlip =>
      [Phrase("salary"), Phrase("salary slip"), Phrase("pay slip"), Phrase("net pay"), Phrase("gross salary"), Phrase("basic")]
    case BankStatement =>
      [Phrase("bank statement"), Phrase("account summary"), Phrase("debit"), Phrase("credit"), Phrase("available balance")]
    case Form16 => [Phrase("form-16"), Phrase("form 16"), Phrase("income tax"), Phrase("tds deducted")]
    case Cibil =>
      [Phrase("cibil"), Phrase("credit information"), Phrase("credit bureau"), Phrase("transunion"),
       Phrase("equifax"), Phrase("credit score")]
    case Employment => [Phrase("offer letter"), Phrase("appointment letter"), Phrase("employment"), Phrase("employer")]
    case Property => [Phrase("agreement"), Phrase("sale deed"), Phrase("property"), Phrase("valuation"), Phrase("registry")]
  }

  lemma AllTagsListed()
    ensures forall tag :: tag in AllTags
  {
    forall tag ensures tag in AllTags {
      match tag
      case Pan => case Aadhaar => case SalarySlip => case BankStatement =>
      case Form16 => case Cibil => case Employment => case Property =>
    }
  }

  /** One of the tag's keyword alternatives occurs in the (lower-cased) text `t`. */
  ghost predicate Detected(tag: Tag, t: string)
  {
    exists k :: k in Signature(tag) && Occurs(k, t)
  }

  /** Scans the lower-cased text `t` for the tag's signature. */
  predicate Matches(tag: Tag, t: string)
  {
    AnyOccurs(Signature(tag), t)
  }

  /** The tags of a document text. */
  function DocTypes(text: string): (tags: set<Tag>)
    ensures forall tag :: tag in tags <==> Detected(tag, Lower(text))
  {
    var t := Lower(text);
    AllTagsListed();
    forall tag ensures Matches(tag, t) <==> Detected(tag, t) {
      AnyOccursFinds(Signature(tag), t);
    }
    set tag | tag in AllTags && Matches(tag, t)
  }

  /** `detect_doc_types`: tests the eight signatures one after another, in the
      source's order, adding each tag whose signature matches. */
  method DetectDocTypes(text: string) returns (types: set<Tag>)
    ensures types == DocTypes(text)
  {
    types := {};
    var t := Lower(text);
    for i := 0 to |AllTags|
      invariant types == set tag | tag in AllTags[..i] && Matches(tag, t)
    {
      var tag := AllTags[i];
      if Matches(tag, t) {
        types := types + {tag};
      }
      assert AllTags[..i + 1] == AllTags[..i] + [tag];
    }
    assert AllTags[..|AllTags|] == AllTags;
  }
}
