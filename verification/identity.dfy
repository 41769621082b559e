/** The identity-document extractors `parse_pan` and `parse_aadhaar`: straight-line
    searches for the first occurrence of each field's pattern. */
module Identity {
  import opened Wrappers
  import opened Text
  import opened Patterns

  // ---------------------------------------------------------------- PAN card

  /** The dict `parse_pan` returns; a field is absent when its pattern did not match. */
  datatype PanFields = PanFields(pan: Option<string>, name: Option<string>, dob: Option<string>)
  {
    /** The dict is empty, so Python treats it as false. */
    predicate IsEmpty() { pan.None? && name.None? && dob.None? }
  }

  /** `[A-Z]{5}[0-9]{4}[A-Z]`, case as written. */
  predicate PanShape(w: string)
  {
    && |w| == 10
    && (forall k :: 0 <= k < 5 ==> IsUpper(w[k]))
    && (forall k :: 5 <= k < 9 ==> IsDigit(w[k]))
    && IsUpper(w[9])
  }

  /** Ten characters of that shape start at `i`. */
  predicate PanShapeAt(s: string, i: nat)
  {
    i + 10 <= |s| && PanShape(s[i..i + 10])
  }

  function PanAt(s: string, i: nat): Option<string>
  {
    if PanShapeAt(s, i) then Some(s[i..i + 10]) else None
  }

  /** The PAN number: the leftmost ten characters of PAN shape, if any. */
  function FirstPan(text: string): (r: Option<string>)
    ensures r.Some? <==> exists i :: 0 <= i <= |text| && PanShapeAt(text, i)
    ensures r.Some? ==> PanShape(r.value)
    ensures r.Some? ==> exists i :: 0 <= i <= |text| && PanShapeAt(text, i) && r.value == text[i..i + 10]
                                   && forall j :: 0 <= j < i ==> !PanShapeAt(text, j)
  {
    match FirstFrom(text, 0, PanAt)
    case Some((i, v)) =>
      forall j | 0 <= j < i ensures !PanShapeAt(text, j) {
        assert PanAt(text, j).None?;
      }
      assert PanShapeAt(text, i);
      Some(v)
    case None =>
      forall i | 0 <= i <= |text| ensures !PanShapeAt(text, i) {
        assert PanAt(text, i).None?;
      }
      None
  }

  /** `[A-Z\s\.]` when case is ignored. */
  predicate IsNameChar(c: char) { IsLetter(c) || IsSpace(c) || c == '.' }

  /** `Name\s*[:\-]?\s*([A-Z][A-Z\s\.]{3,100})` ignoring case, matched at `i`: a
      letter followed by the greedy run of name characters, cut at one hundred
      and at least three long. Backtracking into the separator cannot help,
      since the capture must start with a letter. */
  function NameAt(s: string, i: nat): (r: Option<string>)
    ensures r.Some? ==> 4 <= |r.value| <= 101 && IsLetter(r.value[0])
    ensures r.Some? ==> forall k :: 0 < k < |r.value| ==> IsNameChar(r.value[k])
    ensures r.Some? ==> HasAtCi(s, i, "name")
    ensures r.Some? ==>
              var p := LabelSep(s, i + 4);
              && p + |r.value| <= |s| && r.value == s[p..p + |r.value|]
              && (|r.value| == 101 || p + |r.value| == |s| || !IsNameChar(s[p + |r.value|]))
  {
    if !HasAtCi(s, i, "name") then None
    else
      var p := LabelSep(s, i + 4);
      if p < |s| && IsLetter(s[p]) then
        var e := SpanWhile(s, p + 1, IsNameChar);
        var n := if e - (p + 1) < 100 then e - (p + 1) else 100;
        if n >= 3 then Some(s[p..p + 1 + n]) else None
      else None
  }

  /** A `Name` label matches at `i` exactly when a letter follows its
      separator and at least three name characters follow that letter. */
  lemma NameAtMatches(s: string, i: nat)
    ensures NameAt(s, i).Some? <==>
              && HasAtCi(s, i, "name")
              && var p := LabelSep(s, i + 4);
                 && p + 4 <= |s| && IsLetter(s[p])
                 && forall k :: p < k < p + 4 ==> IsNameChar(s[k])
  {
    if HasAtCi(s, i, "name") {
      var p := LabelSep(s, i + 4);
      if p + 4 <= |s| && IsLetter(s[p]) && (forall k :: p < k < p + 4 ==> IsNameChar(s[k])) {
        var e := SpanWhile(s, p + 1, IsNameChar);
        assert e >= p + 4;
      }
    }
  }

  /** The candidate name: the first `Name` label's capture, stripped. */
  function FirstName(text: string): (r: Option<string>)
    ensures r.Some? <==> exists i :: 0 <= i <= |text| && NameAt(text, i).Some?
    ensures r.Some? ==> r.value != [] && IsLetter(r.value[0]) && !IsSpace(r.value[|r.value| - 1])
  {
    match Search(text, NameAt)
    case Some(n) =>
      assert !IsSpace(n[0]);
      Some(Strip(n))
    case None => None
  }

  /** The name kept is the stripped capture at the first position where the
      `Name` pattern matches. */
  lemma FirstNameFirst(text: string)
    ensures FirstName(text).Some? ==>
              exists i :: 0 <= i <= |text| && NameAt(text, i).Some?
                && (forall j :: 0 <= j < i ==> NameAt(text, j).None?)
                && FirstName(text).value == Strip(NameAt(text, i).value)
  {
  }

  /** `\d{2}/\d{2}/\d{4}`. */
  predicate DateShape(w: string)
  {
    |w| == 10 && w[2] == '/' && w[5] == '/' && forall k :: 0 <= k < 10 && k != 2 && k != 5 ==> IsDigit(w[k])
  }

  /** Ten characters of that shape start at `i`. */
  predicate DateShapeAt(s: string, i: nat)
  {
    i + 10 <= |s| && DateShape(s[i..i + 10])
  }

  function DateAt(s: string, i: nat): Option<string>
  {
    if DateShapeAt(s, i) then Some(s[i..i + 10]) else None
  }

  /** The date of birth: the leftmost `dd/mm/yyyy`-shaped substring. */
  function FirstDate(text: string): (r: Option<string>)
    ensures r.Some? <==> exists i :: 0 <= i <= |text| && DateShapeAt(text, i)
    ensures r.Some? ==> DateShape(r.value)
    ensures r.Some? ==> exists i :: 0 <= i <= |text| && DateShapeAt(text, i) && r.value == text[i..i + 10]
                                   && forall j :: 0 <= j < i ==> !DateShapeAt(text, j)
  {
    match FirstFrom(text, 0, DateAt)
    case Some((i, v)) =>
      forall j | 0 <= j < i ensures !DateShapeAt(text, j) {
        assert DateAt(text, j).None?;
      }
      assert DateShapeAt(text, i);
      Some(v)
    case None =>
      forall i | 0 <= i <= |text| ensures !DateShapeAt(text, i) {
        assert DateAt(text, i).None?;
      }
      None
  }

  /** `parse_pan`. */
  function ParsePan(text: string): (r: PanFields)
    ensures r.pan.Some? ==> PanShape(r.pan.value)
    ensures r.dob.Some? ==> DateShape(r.dob.value)
    ensures r.IsEmpty() <==> FirstPan(text).None? && FirstName(text).None? && FirstDate(text).None?
  {
    PanFields(FirstPan(text), FirstName(text), FirstDate(text))
  }

  // ------------------------------------------------------------ Aadhaar card

  /** The dict `parse_aadhaar` returns. */
  datatype AadhaarFields = AadhaarFields(aadhaar: Option<string>, address: Option<string>)
  {
    predicate IsEmpty() { aadhaar.None? && address.None? }
  }

  /** Where an optional `\s?` ends: one white-space character is taken when present. */
  function OptionalSpace(s: string, i: nat): (e: nat)
    ensures e == i || (e == i + 1 && i < |s| && IsSpace(s[i]))
  {
    if i < |s| && IsSpace(s[i]) then i + 1 else i
  }

  /** `.replace(" ", "")`: drops every plain space (other white space stays). */
  function RemoveBlanks(s: string): (r: string)
    ensures |r| <= |s| && ' ' !in r
    ensures forall c :: c in r ==> c in s
  {
    if s == [] then []
    else (if s[0] == ' ' then [] else [s[0]]) + RemoveBlanks(s[1..])
  }

  /** `\b(\d{4}\s?\d{4}\s?\d{4})\b` at `i`, blanks removed from the capture. Each
      optional space is taken exactly when present, since the next group needs
      a digit there. */
  function AadhaarAt(s: string, i: nat): (r: Option<string>)
    ensures r.Some? ==> 12 <= |r.value| <= 14 && ' ' !in r.value
    ensures r.Some? ==> forall c :: c in r.value ==> IsDigit(c) || IsSpace(c)
    ensures r.Some? ==> BoundaryAt(s, i) && DigitsAt(s, i, 4) && r.value[..4] == s[i..i + 4]
  {
    if !(BoundaryAt(s, i) && DigitsAt(s, i, 4)) then None
    else
      var p := OptionalSpace(s, i + 4);
      if !DigitsAt(s, p, 4) then None
      else
        var q := OptionalSpace(s, p + 4);
        if !(DigitsAt(s, q, 4) && BoundaryAt(s, q + 4)) then None
        else
          AadhaarCapture(s, i, p, q);
          AadhaarPrefix(s, i, q);
          Some(RemoveBlanks(s[i..q + 4]))
  }

  /** `\d{4}\s?\d{4}\s?\d{4}` at `i`, with the second group at `p` and the
      third at `q`: each separator is empty or one white-space character. */
  predicate AadhaarGroups(s: string, i: nat, p: nat, q: nat)
  {
    && i + 4 <= p <= i + 5 && p + 4 <= q <= p + 5 && q + 4 <= |s|
    && DigitsAt(s, i, 4) && DigitsAt(s, p, 4) && DigitsAt(s, q, 4)
    && (p == i + 5 ==> IsSpace(s[i + 4]))
    && (q == p + 5 ==> IsSpace(s[p + 4]))
  }

  /** A match at `i` is three digit groups between word boundaries, and the
      result is that text with its blanks removed. */
  lemma AadhaarAtCaptures(s: string, i: nat) returns (p: nat, q: nat)
    requires AadhaarAt(s, i).Some?
    ensures BoundaryAt(s, i) && AadhaarGroups(s, i, p, q) && BoundaryAt(s, q + 4)
    ensures AadhaarAt(s, i) == Some(RemoveBlanks(s[i..q + 4]))
  {
    p := OptionalSpace(s, i + 4);
    q := OptionalSpace(s, p + 4);
  }

  /** Conversely, three digit groups between word boundaries at `i` are a match,
      whichever separators they use. */
  lemma AadhaarAtFinds(s: string, i: nat, p: nat, q: nat)
    requires BoundaryAt(s, i) && AadhaarGroups(s, i, p, q) && BoundaryAt(s, q + 4)
    ensures AadhaarAt(s, i) == Some(RemoveBlanks(s[i..q + 4]))
  {
    if p == i + 4 {
      assert IsDigit(s[i + 4]);
    }
    assert OptionalSpace(s, i + 4) == p;
    if q == p + 4 {
      assert IsDigit(s[p + 4]);
    }
    assert OptionalSpace(s, p + 4) == q;
  }

  /** The capture of three digit groups, each separator at most one character,
      keeps twelve to fourteen characters once its blanks are removed. */
  lemma AadhaarCapture(s: string, i: nat, p: nat, q: nat)
    requires AadhaarGroups(s, i, p, q)
    ensures 12 <= |RemoveBlanks(s[i..q + 4])| <= 14
    ensures forall c :: c in RemoveBlanks(s[i..q + 4]) ==> IsDigit(c) || IsSpace(c)
  {
    var w := s[i..q + 4];
    var d1, s1, d2, s2, d3 := s[i..i + 4], s[i + 4..p], s[p..p + 4], s[p + 4..q], s[q..q + 4];
    SliceSplit(s, i, i + 4, p);
    SliceSplit(s, i, p, p + 4);
    SliceSplit(s, i, p + 4, q);
    SliceSplit(s, i, q, q + 4);
    forall k | 0 <= k < 4 ensures IsDigit(d1[k]) && IsDigit(d2[k]) && IsDigit(d3[k]) {
      assert d1[k] == s[i + k] && d2[k] == s[p + k] && d3[k] == s[q + k];
    }
    BlanksOfGroups(d1, s1, d2, s2, d3);
    AadhaarChars(s, i, p, q);
    forall c | c in RemoveBlanks(w) ensures IsDigit(c) || IsSpace(c) {
      var k :| 0 <= k < |w| && w[k] == c;
      assert w[k] == s[i + k];
    }
  }

  /** Every character of the match is a digit or the white space between groups. */
  lemma AadhaarChars(s: string, i: nat, p: nat, q: nat)
    requires AadhaarGroups(s, i, p, q)
    ensures forall k :: i <= k < q + 4 ==> IsDigit(s[k]) || IsSpace(s[k])
  {
    forall k | i <= k < q + 4 ensures IsDigit(s[k]) || IsSpace(s[k]) {
      if k < i + 4 {
      } else if k < p {
        assert k == i + 4 && p == i + 5;
      } else if k < p + 4 {
      } else if k < q {
        assert k == p + 4 && q == p + 5;
      }
    }
  }

  /** The capture, blanks removed, still starts with the first digit group. */
  lemma AadhaarPrefix(s: string, i: nat, q: nat)
    requires i + 4 <= q + 4 <= |s| && DigitsAt(s, i, 4)
    ensures |RemoveBlanks(s[i..q + 4])| >= 4 && RemoveBlanks(s[i..q + 4])[..4] == s[i..i + 4]
  {
    var d, rest := s[i..i + 4], s[i + 4..q + 4];
    SliceSplit(s, i, i + 4, q + 4);
    RemoveBlanksConcat(d, rest);
    forall k | 0 <= k < 4 ensures IsDigit(d[k]) {
      assert d[k] == s[i + k];
    }
    NoBlanks(d);
  }

  /** Removing blanks from three digit groups and their separators keeps the groups. */
  lemma BlanksOfGroups(d1: string, s1: string, d2: string, s2: string, d3: string)
    requires forall k :: 0 <= k < |d1| ==> IsDigit(d1[k])
    requires forall k :: 0 <= k < |d2| ==> IsDigit(d2[k])
    requires forall k :: 0 <= k < |d3| ==> IsDigit(d3[k])
    ensures RemoveBlanks(d1 + s1 + d2 + s2 + d3) == d1 + RemoveBlanks(s1) + d2 + RemoveBlanks(s2) + d3
  {
    RemoveBlanksConcat(d1 + s1 + d2 + s2, d3);
    RemoveBlanksConcat(d1 + s1 + d2, s2);
    RemoveBlanksConcat(d1 + s1, d2);
    RemoveBlanksConcat(d1, s1);
    NoBlanks(d1);
    NoBlanks(d2);
    NoBlanks(d3);
  }

  lemma {:induction false} RemoveBlanksConcat(a: string, b: string)
    ensures RemoveBlanks(a + b) == RemoveBlanks(a) + RemoveBlanks(b)
  {
    if a == [] {
      assert a + b == b;
    } else {
      assert (a + b)[0] == a[0] && (a + b)[1..] == a[1..] + b;
      RemoveBlanksConcat(a[1..], b);
      assert RemoveBlanks(a) == (if a[0] == ' ' then [] else [a[0]]) + RemoveBlanks(a[1..]);
    }
  }

  lemma {:induction false} NoBlanks(a: string)
    requires forall k :: 0 <= k < |a| ==> IsDigit(a[k])
    ensures RemoveBlanks(a) == a
  {
    if a != [] {
      NoBlanks(a[1..]);
    }
  }

  /** The Aadhaar number: the first twelve-digit group, blanks removed. */
  function FirstAadhaar(text: string): (r: Option<string>)
    ensures r.Some? <==> exists i :: 0 <= i <= |text| && AadhaarAt(text, i).Some?
    ensures r.Some? ==> 12 <= |r.value| <= 14 && ' ' !in r.value
    ensures r.Some? ==> exists i :: 0 <= i <= |text| && AadhaarAt(text, i) == r
                          && forall j :: 0 <= j < i ==> AadhaarAt(text, j).None?
  {
    Search(text, AadhaarAt)
  }

  /** `[:\s\-]`. */
  predicate IsAddressSep(c: char) { c == ':' || c == '-' || IsSpace(c) }

  /** The lookahead `(?=\n[A-Z]{2,}|$)` (case ignored, no multi-line mode) at `e`:
      a newline followed by two letters, the end, or a final newline. */
  predicate AddressStop(s: string, e: nat)
  {
    || e == |s|
    || (e + 1 == |s| && s[e] == '\n')
    || (e + 2 < |s| && s[e] == '\n' && IsLetter(s[e + 1]) && IsLetter(s[e + 2]))
  }

  /** The first position from `e` on where the lookahead holds (the lazy `.+?`). */
  function StopFrom(s: string, e: nat): (r: nat)
    requires e <= |s|
    ensures e <= r <= |s| && AddressStop(s, r)
    ensures forall k :: e <= k < r ==> !AddressStop(s, k)
    decreases |s| - e
  {
    if AddressStop(s, e) then e else StopFrom(s, e + 1)
  }

  /** `address[:\s\-]*(.+?)(?=\n[A-Z]{2,}|$)` ignoring case, dot matching newlines,
      at `i`. The separator run is greedy; when it reaches the end of the text it
      gives back its last character so that `.+?` can take one. */
  function AddressAt(s: string, i: nat): (r: Option<string>)
    ensures r.Some? ==> r.value != [] && HasAtCi(s, i, "address")
    ensures HasAtCi(s, i, "address") ==>
              var p := SpanWhile(s, i + 7, IsAddressSep);
              && (p < |s| ==> r == Some(s[p..StopFrom(s, p + 1)]))
              && (p == |s| ==> (r.Some? <==> p > i + 7))
              && (p == |s| && p > i + 7 ==> r == Some(s[p - 1..p]))
  {
    if !HasAtCi(s, i, "address") then None
    else
      var a := i + 7;
      var p := SpanWhile(s, a, IsAddressSep);
      if p < |s| then Some(s[p..StopFrom(s, p + 1)])
      else if p > a then Some(s[p - 1..p])
      else None
  }

  /** The address: the first line of the first `address` capture, stripped. */
  function FirstAddress(text: string): (r: Option<string>)
    ensures r.Some? <==> exists i :: 0 <= i <= |text| && AddressAt(text, i).Some?
    ensures r.Some? ==> forall c :: c in r.value ==> c != '\n'
    ensures r.Some? ==> exists i :: 0 <= i <= |text| && AddressAt(text, i).Some?
                          && (forall j :: 0 <= j < i ==> AddressAt(text, j).None?)
                          && r.value == FirstSegment(Strip(AddressAt(text, i).value))
  {
    match Search(text, AddressAt)
    case Some(span) => Some(FirstSegment(Strip(span)))
    case None => None
  }

  /** `parse_aadhaar`. */
  function ParseAadhaar(text: string): (r: AadhaarFields)
    ensures r.aadhaar.Some? ==> ' ' !in r.aadhaar.value
    ensures r.IsEmpty() <==> FirstAadhaar(text).None? && FirstAddress(text).None?
  {
    AadhaarFields(FirstAadhaar(text), FirstAddress(text))
  }
}
