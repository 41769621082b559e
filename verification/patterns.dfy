/** Pieces shared by several of the extractor's regular expressions, each
    written as a scanner that reproduces the greedy match Python's `re` finds. */
module Patterns {
  import opened Wrappers
  import opened Text

  predicate IsSeparator(c: char) { c == ':' || c == '-' }

  /** `[0-9,]`, the characters of a captured amount. */
  predicate IsAmountChar(c: char) { IsDigit(c) || c == ',' }

  predicate AllAmountChars(s: string)
  {
    forall k :: 0 <= k < |s| ==> IsAmountChar(s[k])
  }

  /** Where `\s*[:\-]?\s*` ends when matched from `i`. Backtracking cannot
      change the outcome of the patterns that use it, because what follows the
      separator is never white space, a colon or a dash. */
  function LabelSep(s: string, i: nat): (e: nat)
    requires i <= |s|
    ensures i <= e <= |s|
    ensures e < |s| ==> !IsSpace(s[e])
  {
    var p := SpanWhile(s, i, IsSpace);
    var q := if p < |s| && IsSeparator(s[p]) then p + 1 else p;
    SpanWhile(s, q, IsSpace)
  }

  /** Where the two-word label `w1\s+w2`, ignoring case, ends when it starts at `i`. */
  function SpacedLabelEnd(s: string, i: nat, w1: string, w2: string): (a: Option<nat>)
    ensures a.Some? <==> HasAtCi(s, i, w1) && var p := SpanWhile(s, i + |w1|, IsSpace);
                           p > i + |w1| && HasAtCi(s, p, w2)
    ensures a.Some? ==> a.value == SpanWhile(s, i + |w1|, IsSpace) + |w2| <= |s|
  {
    if !HasAtCi(s, i, w1) then None
    else
      var p := SpanWhile(s, i + |w1|, IsSpace);
      if p > i + |w1| && HasAtCi(s, p, w2) then Some(p + |w2|) else None
  }

  /** `\.?\s*([0-9,]+)` matched from `from` captures `run`, which starts at `q`:
      an optional dot, white space, then the whole run of digits and commas. */
  predicate AmountAfter(s: string, from: nat, q: nat, run: string)
  {
    && from <= q && q + |run| <= |s| && run == s[q..q + |run|]
    && run != [] && AllAmountChars(run)
    && (q + |run| == |s| || !IsAmountChar(s[q + |run|]))
    && forall k :: from <= k < q ==> IsSpace(s[k]) || (k == from && s[k] == '.')
  }

  /** `\.?\s*([0-9,]+)` matched from `from` captures `run`. */
  ghost predicate CapturesAmount(s: string, from: nat, run: string)
  {
    exists q :: AmountAfter(s, from, q, run)
  }

  /** The capture is determined by where the match starts: the run cannot start
      earlier or later, nor stop earlier or later. */
  lemma AmountAfterUnique(s: string, from: nat, q1: nat, r1: string, q2: nat, r2: string)
    requires AmountAfter(s, from, q1, r1) && AmountAfter(s, from, q2, r2)
    ensures q1 == q2 && r1 == r2
  {
    assert r1[0] == s[q1] && r2[0] == s[q2];
    assert q1 == q2;
    AmountRun(s, from, q1, r1);
    AmountRun(s, from, q2, r2);
    assert |r1| == |r2|;
  }

  /** Every position of the captured run holds a digit or a comma. */
  lemma AmountRun(s: string, from: nat, q: nat, run: string)
    requires AmountAfter(s, from, q, run)
    ensures forall k :: q <= k < q + |run| ==> IsAmountChar(s[k])
  {
    forall k | q <= k < q + |run| ensures IsAmountChar(s[k]) {
      assert s[k] == run[k - q];
    }
  }

  /** So at most one run is captured from a given position. */
  lemma CapturesAmountUnique(s: string, from: nat, r1: string, r2: string)
    requires CapturesAmount(s, from, r1) && CapturesAmount(s, from, r2)
    ensures r1 == r2
  {
    var q1 :| AmountAfter(s, from, q1, r1);
    var q2 :| AmountAfter(s, from, q2, r2);
    AmountAfterUnique(s, from, q1, r1, q2, r2);
  }

  /** `Rs` at `i`: in any case when `anyCase`. */
  predicate RsAt(s: string, i: nat, anyCase: bool)
  {
    if anyCase then HasAtCi(s, i, "rs") else HasAt(s, i, "Rs")
  }

  /** `Rs\.?\s*([0-9,]{min,})` matched at `i` (`Rs` in any case when `anyCase`):
      where the match ends and the captured run of digits and commas. The
      capture is the whole run, as the greedy `+` or `{min,}` takes it. */
  function RsRunAt(s: string, i: nat, anyCase: bool, min: nat): (r: Option<(nat, string)>)
    ensures r.Some? ==> i + 2 <= |s| && (if anyCase then HasAtCi(s, i, "rs") else HasAt(s, i, "Rs"))
    ensures r.Some? ==> i < r.value.0 <= |s| && |r.value.1| >= min && r.value.1 != []
    ensures r.Some? ==> AllAmountChars(r.value.1)
    ensures r.Some? && !anyCase ==> forall k :: i < k < r.value.0 ==> s[k] != 'R'
  {
    if !(if anyCase then HasAtCi(s, i, "rs") else HasAt(s, i, "Rs")) then None
    else
      var p := if i + 2 < |s| && s[i + 2] == '.' then i + 3 else i + 2;
      var q := SpanWhile(s, p, IsSpace);
      var e := SpanWhile(s, q, IsAmountChar);
      if e > q && e - q >= min then Some((e, s[q..e])) else None
  }

  /** The capture is the run after `Rs`, an optional dot and white space, and
      the match ends where the run does. */
  lemma RsRunAtCaptures(s: string, i: nat, anyCase: bool, min: nat)
    requires RsRunAt(s, i, anyCase, min).Some?
    ensures var (e, run) := RsRunAt(s, i, anyCase, min).value;
            e >= |run| && AmountAfter(s, i + 2, e - |run|, run)
  {
    var p := if i + 2 < |s| && s[i + 2] == '.' then i + 3 else i + 2;
    var q := SpanWhile(s, p, IsSpace);
    var e := SpanWhile(s, q, IsAmountChar);
    assert AmountAfter(s, i + 2, q, s[q..e]);
  }

  /** Conversely, `Rs` at `i` followed by a dot, white space and a run of at
      least `min` digits and commas is matched, with that run captured. */
  lemma RsRunAtFinds(s: string, i: nat, anyCase: bool, min: nat, q: nat, run: string)
    requires RsAt(s, i, anyCase) && AmountAfter(s, i + 2, q, run) && |run| >= min
    ensures RsRunAt(s, i, anyCase, min) == Some((q + |run|, run))
  {
    var p := if i + 2 < |s| && s[i + 2] == '.' then i + 3 else i + 2;
    var q' := SpanWhile(s, p, IsSpace);
    var e := SpanWhile(s, q', IsAmountChar);
    assert run[0] == s[q];
    assert q' == q;
    assert e > q';
    AmountAfterUnique(s, i + 2, q, run, q', s[q'..e]);
  }

  /** The capture of `Rs\.?\s*([0-9,]+)` at `i` (`Rs` in any case when `anyCase`). */
  function RsAmountAt(s: string, i: nat, anyCase: bool): (r: Option<string>)
    ensures r.Some? ==> r.value != [] && AllAmountChars(r.value)
  {
    match RsRunAt(s, i, anyCase, 1)
    case Some((_, run)) => Some(run)
    case None => None
  }

  /** What `Rs\.?\s*([0-9,]+)` captures at `i` is the run after `Rs`, an
      optional dot and white space. */
  lemma RsAmountAtCaptures(s: string, i: nat, anyCase: bool)
    requires RsAmountAt(s, i, anyCase).Some?
    ensures RsAt(s, i, anyCase) && CapturesAmount(s, i + 2, RsAmountAt(s, i, anyCase).value)
  {
    RsRunAtCaptures(s, i, anyCase, 1);
  }

  /** A labelled amount: the label's end `a`, then `\s*[:\-]?\s*Rs\.?\s*([0-9,]+)`
      ignoring case. */
  function LabelledAmount(s: string, a: Option<nat>): (r: Option<string>)
    ensures r.Some? ==> r.value != [] && AllAmountChars(r.value)
  {
    match a
    case Some(e) => if e <= |s| then RsAmountAt(s, LabelSep(s, e), true) else None
    case None => None
  }

  /** A labelled amount is the run after the label's separators, `Rs`, an
      optional dot and white space. */
  lemma LabelledAmountCaptures(s: string, a: Option<nat>)
    requires LabelledAmount(s, a).Some?
    ensures a.Some? && a.value <= |s| && RsAt(s, LabelSep(s, a.value), true)
    ensures CapturesAmount(s, LabelSep(s, a.value) + 2, LabelledAmount(s, a).value)
  {
    RsAmountAtCaptures(s, LabelSep(s, a.value), true);
  }
}
