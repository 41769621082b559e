/** Character classes, case folding, stripping, line splitting and the
    left-to-right search that every pattern of the extractor relies on.
    Character classes are the ASCII part of Python's Unicode classes. */
module Text {
  import opened Wrappers

  predicate IsDigit(c: char) { '0' <= c <= '9' }
  predicate IsUpper(c: char) { 'A' <= c <= 'Z' }
  predicate IsLower(c: char) { 'a' <= c <= 'z' }
  predicate IsLetter(c: char) { IsUpper(c) || IsLower(c) }

  /** `\w`: letters, digits and the underscore. */
  predicate IsWordChar(c: char) { IsLetter(c) || IsDigit(c) || c == '_' }

  /** `\s` and `str.isspace()`: the characters Python treats as white space. */
  predicate IsSpace(c: char)
  {
    c == ' ' || '\t' <= c <= '\r' || '\U{1C}' <= c <= '\U{1F}' || c == '\U{85}' || c == '\U{A0}'
    || c == '\U{1680}' || '\U{2000}' <= c <= '\U{200A}' || c == '\U{2028}' || c == '\U{2029}'
    || c == '\U{202F}' || c == '\U{205F}' || c == '\U{3000}'
  }

  /** The line boundaries of `str.splitlines()` (`\r\n` counts as one). */
  predicate IsLineBreak(c: char)
  {
    c == '\n' || c == '\r' || c == '\U{0B}' || c == '\U{0C}' || '\U{1C}' <= c <= '\U{1E}'
    || c == '\U{85}' || c == '\U{2028}' || c == '\U{2029}'
  }

  function LowerChar(c: char): (d: char)
    ensures IsLetter(c) ==> IsLower(d)
    ensures IsWordChar(d) == IsWordChar(c)
  {
    if IsUpper(c) then (c as int + 32) as char else c
  }

  /** `str.lower()` restricted to ASCII letters. */
  function Lower(s: string): (r: string)
    ensures |r| == |s|
    ensures forall i :: 0 <= i < |s| ==> r[i] == LowerChar(s[i])
  {
    seq(|s|, i requires 0 <= i < |s| => LowerChar(s[i]))
  }

  /** A slice is the concatenation of its two halves. */
  lemma SliceSplit<T>(s: seq<T>, a: nat, b: nat, c: nat)
    requires a <= b <= c <= |s|
    ensures s[a..c] == s[a..b] + s[b..c]
  {
    var l, r := s[a..b], s[b..c];
    forall k | 0 <= k < c - a ensures s[a..c][k] == (l + r)[k] {
      if k < b - a {
        assert (l + r)[k] == l[k];
      } else {
        assert (l + r)[k] == r[k - (b - a)];
      }
    }
  }

  /** `\d{n}` at position `i`. */
  predicate DigitsAt(s: string, i: nat, n: nat)
  {
    i + n <= |s| && forall k :: i <= k < i + n ==> IsDigit(s[k])
  }

  /** `w` occurs in `s` at position `i`. */
  predicate HasAt(s: string, i: nat, w: string)
  {
    i + |w| <= |s| && s[i..i + |w|] == w
  }

  /** `w` (written in lower case) occurs in `s` at `i`, ignoring ASCII case. */
  predicate HasAtCi(s: string, i: nat, w: string)
  {
    i + |w| <= |s| && Lower(s[i..i + |w|]) == w
  }

  /** Python's `w in s`. */
  predicate Contains(s: string, w: string)
  {
    exists i | 0 <= i <= |s| :: HasAt(s, i, w)
  }

  /** The end of the longest run of characters satisfying `p` that starts at `i`
      (a greedy `[...]*`). */
  function SpanWhile(s: string, i: nat, p: char -> bool): (e: nat)
    requires i <= |s|
    ensures i <= e <= |s|
    ensures forall k :: i <= k < e ==> p(s[k])
    ensures e < |s| ==> !p(s[e])
    decreases |s| - i
  {
    if i < |s| && p(s[i]) then SpanWhile(s, i + 1, p) else i
  }

  /** The length of `s` once its trailing white space is dropped. */
  function TrimmedLength(s: string): (n: nat)
    ensures n <= |s|
    ensures forall k :: n <= k < |s| ==> IsSpace(s[k])
    ensures n > 0 ==> !IsSpace(s[n - 1])
  {
    if |s| > 0 && IsSpace(s[|s| - 1]) then TrimmedLength(s[..|s| - 1]) else |s|
  }

  /** `str.strip()`: the text between the leading and the trailing white space. */
  function Strip(s: string): (r: string)
    ensures |r| <= |s|
    ensures r == [] || (!IsSpace(r[0]) && !IsSpace(r[|r| - 1]))
    ensures forall c :: c in r ==> c in s
  {
    var a := SpanWhile(s, 0, IsSpace);
    var t := s[a..];
    t[..TrimmedLength(t)]
  }

  /** `r` is the slice of `s` at `a`, with only white space before and after it. */
  predicate StrippedAt(s: string, a: nat, r: string)
  {
    && a + |r| <= |s| && r == s[a..a + |r|]
    && (forall k :: 0 <= k < a ==> IsSpace(s[k]))
    && (forall k :: a + |r| <= k < |s| ==> IsSpace(s[k]))
  }

  /** The stripped text is a slice of `s` with only white space before and after it. */
  lemma StripSlice(s: string) returns (a: nat)
    ensures StrippedAt(s, a, Strip(s))
  {
    a := SpanWhile(s, 0, IsSpace);
    var t := s[a..];
    var r := t[..TrimmedLength(t)];
    assert r == Strip(s);
    assert r == s[a..a + |r|];
    assert forall k :: a + |r| <= k < |s| ==> s[k] == t[k - a];
  }

  /** No other slice between white-space runs starts and ends with a visible
      character, so the stripped text is the only such slice: it is the
      one `str.strip()` returns. */
  lemma StripUnique(s: string, a: nat, r: string)
    requires StrippedAt(s, a, r) && (r == [] || (!IsSpace(r[0]) && !IsSpace(r[|r| - 1])))
    ensures Strip(s) == r
  {
    var t := Strip(s);
    var b := StripSlice(s);
    if r != [] {
      assert r[0] == s[a] && r[|r| - 1] == s[a + |r| - 1];
      assert b <= a && a + |r| <= b + |t|;
    }
    if t != [] {
      assert t[0] == s[b] && t[|t| - 1] == s[b + |t| - 1];
      assert a <= b && b + |t| <= a + |r|;
    }
  }

  /** `s.split("\n")[0]`: the text before the first newline. */
  function FirstSegment(s: string): (r: string)
    ensures forall c :: c in r ==> c != '\n'
    ensures |r| <= |s| && r == s[..|r|] && (|r| == |s| || s[|r|] == '\n')
  {
    s[..SpanWhile(s, 0, c => c != '\n')]
  }

  /** `str.splitlines()`: lines without their terminators, and no empty line after a
      final terminator. */
  function SplitLines(s: string): (lines: seq<string>)
    ensures forall l :: l in lines ==> forall c :: c in l ==> !IsLineBreak(c)
    decreases |s|
  {
    if s == [] then []
    else
      var k := SpanWhile(s, 0, c => !IsLineBreak(c));
      if k == |s| then [s]
      else
        var next := if s[k] == '\r' && k + 1 < |s| && s[k + 1] == '\n' then k + 2 else k + 1;
        [s[..k]] + SplitLines(s[next..])
  }

  /** A line without a line break is split into itself alone. */
  lemma SplitLinesOne(x: string)
    requires x != [] && forall k :: 0 <= k < |x| ==> !IsLineBreak(x[k])
    ensures SplitLines(x) == [x]
  {
  }

  /** A terminator of `str.splitlines()`: `\r\n`, or any single line break. */
  predicate Terminator(t: string)
  {
    t == "\r\n" || (|t| == 1 && IsLineBreak(t[0]))
  }

  /** Text that starts with a line `x` and its terminator `t` splits into `x`
      and the lines of what follows; a lone `\r` cannot be followed by `\n`,
      since the two would form one terminator. */
  lemma SplitLinesStep(x: string, t: string, y: string)
    requires forall k :: 0 <= k < |x| ==> !IsLineBreak(x[k])
    requires Terminator(t) && (t == "\r" ==> y == [] || y[0] != '\n')
    ensures SplitLines(x + t + y) == [x] + SplitLines(y)
  {
    var s := x + t + y;
    var k := SpanWhile(s, 0, c => !IsLineBreak(c));
    assert s[|x|] == t[0];
    assert k == |x|;
    assert s[..k] == x;
    if t == "\r\n" {
      assert s[k + 1] == '\n';
      assert s[k + 2..] == y;
    } else {
      assert s[k + 1..] == y;
    }
  }

  /** The elements of `s` that satisfy `p`, in order (a list comprehension with
      an `if`). */
  function Filter<T(!new)>(s: seq<T>, p: T -> bool): (r: seq<T>)
    ensures |r| <= |s|
    ensures forall k :: 0 <= k < |r| ==> p(r[k])
    decreases |s|
  {
    if s == [] then []
    else
      var init, last := s[..|s| - 1], s[|s| - 1];
      assert s == init + [last];
      Filter(init, p) + (if p(last) then [last] else [])
  }

  /** The kept elements are exactly the elements that satisfy `p`. */
  lemma {:induction false} FilterMembers<T(!new)>(s: seq<T>, p: T -> bool)
    ensures forall x :: x in Filter(s, p) <==> x in s && p(x)
    decreases |s|
  {
    if s != [] {
      var init, last := s[..|s| - 1], s[|s| - 1];
      FilterMembers(init, p);
      assert s == init + [last];
    }
  }

  /** One more element is kept exactly when it satisfies `p`. */
  lemma FilterSnoc<T(!new)>(s: seq<T>, x: T, p: T -> bool)
    ensures Filter(s + [x], p) == Filter(s, p) + (if p(x) then [x] else [])
  {
    assert (s + [x])[..|s|] == s;
  }

  /** `xs` and `ys` have the same length and `rel` holds between the elements
      at each index. */
  predicate Paired<T, U>(xs: seq<T>, ys: seq<U>, rel: (T, U) -> bool)
  {
    |xs| == |ys| && forall k :: 0 <= k < |xs| ==> rel(xs[k], ys[k])
  }

  /** Two sequences paired element by element by `rel` stay paired when the
      first gains `x` if `keep(x)` and the second gains `c`, provided `c` is
      `[v]` with `rel(x, v)` when `x` is kept and `[]` otherwise. */
  lemma PairedSnoc<T, U>(xs: seq<T>, ys: seq<U>, x: T, c: seq<U>, keep: T -> bool, rel: (T, U) -> bool)
    requires Paired(xs, ys, rel)
    requires keep(x) ==> |c| == 1 && rel(x, c[0])
    requires !keep(x) ==> c == []
    ensures Paired(xs + (if keep(x) then [x] else []), ys + c, rel)
  {
    if keep(x) {
      var xs' := xs + [x];
      forall k | 0 <= k < |xs'| ensures rel(xs'[k], (ys + c)[k]) {
        if k < |xs| {
          assert xs'[k] == xs[k] && (ys + c)[k] == ys[k];
        }
      }
    } else {
      assert xs + [] == xs && ys + c == ys;
    }
  }

  /** Filtering distributes over concatenation: together with the one-element
      case this says that every element satisfying `p` is kept, once, in order. */
  lemma {:induction false} FilterConcat<T(!new)>(a: seq<T>, b: seq<T>, p: T -> bool)
    ensures Filter(a + b, p) == Filter(a, p) + Filter(b, p)
    decreases |b|
  {
    if b == [] {
      assert a + b == a;
    } else {
      var init, last := b[..|b| - 1], b[|b| - 1];
      assert (a + b)[..|a + b| - 1] == a + init;
      FilterConcat(a, init, p);
    }
  }

  /** `re.search` for a pattern whose match at each position is given by `at`:
      the leftmost position from `i` on where `at` succeeds, with what it captured. */
  function FirstFrom<T>(s: string, i: nat, at: (string, nat) -> Option<T>): (r: Option<(nat, T)>)
    requires i <= |s|
    ensures r.Some? ==> i <= r.value.0 <= |s| && at(s, r.value.0) == Some(r.value.1)
    ensures r.Some? ==> forall j :: i <= j < r.value.0 ==> at(s, j).None?
    ensures r.None? ==> forall j :: i <= j <= |s| ==> at(s, j).None?
    decreases |s| - i
  {
    match at(s, i)
    case Some(v) => Some((i, v))
    case None => if i < |s| then FirstFrom(s, i + 1, at) else None
  }

  /** What `re.search` over the whole of `s` captures, if anything. */
  function Search<T>(s: string, at: (string, nat) -> Option<T>): (r: Option<T>)
    ensures r.Some? <==> exists i :: 0 <= i <= |s| && at(s, i).Some?
    ensures r.Some? ==> exists i :: 0 <= i <= |s| && at(s, i) == r
                          && forall j :: 0 <= j < i ==> at(s, j).None?
  {
    match FirstFrom(s, 0, at)
    case Some((i, v)) => Some(v)
    case None => None
  }

  // Word boundaries and keyword alternatives.

  /** `\b` at position `i`: a word character on exactly one side. */
  predicate BoundaryAt(s: string, i: nat)
  {
    (0 < i <= |s| && IsWordChar(s[i - 1])) != (i < |s| && IsWordChar(s[i]))
  }

  /** One alternative of a keyword regex: a plain phrase, `\bw\b`, or `\bw`. */
  datatype Keyword = Phrase(w: string) | Word(w: string) | WordStart(w: string)

  predicate KeywordAt(k: Keyword, s: string, i: nat)
  {
    HasAt(s, i, k.w) &&
    match k
    case Phrase(_) => true
    case Word(w) => BoundaryAt(s, i) && BoundaryAt(s, i + |w|)
    case WordStart(_) => BoundaryAt(s, i)
  }

  ghost predicate Occurs(k: Keyword, s: string)
  {
    exists i :: 0 <= i <= |s| && KeywordAt(k, s, i)
  }

  /** Scans `s` from `i` for an occurrence of `k`. */
  function OccursFrom(k: Keyword, s: string, i: nat): bool
    requires i <= |s|
    decreases |s| - i
  {
    KeywordAt(k, s, i) || (i < |s| && OccursFrom(k, s, i + 1))
  }

  lemma {:induction false} OccursFromFinds(k: Keyword, s: string, i: nat)
    requires i <= |s|
    ensures OccursFrom(k, s, i) <==> exists j :: i <= j <= |s| && KeywordAt(k, s, j)
    decreases |s| - i
  {
    if i < |s| {
      OccursFromFinds(k, s, i + 1);
    }
  }

  /** `re.search` of the alternation of `ks` succeeds on `s`. */
  function AnyOccurs(ks: seq<Keyword>, s: string): bool
  {
    if ks == [] then false else OccursFrom(ks[0], s, 0) || AnyOccurs(ks[1..], s)
  }

  lemma {:induction false} AnyOccursFinds(ks: seq<Keyword>, s: string)
    ensures AnyOccurs(ks, s) <==> exists k :: k in ks && Occurs(k, s)
  {
    if ks != [] {
      OccursFromFinds(ks[0], s, 0);
      AnyOccursFinds(ks[1..], s);
      if AnyOccurs(ks, s) {
        if OccursFrom(ks[0], s, 0) {
          var j :| 0 <= j <= |s| && KeywordAt(ks[0], s, j);
          assert Occurs(ks[0], s);
          assert ks[0] in ks;
        } else {
          var k :| k in ks[1..] && Occurs(k, s);
          assert k in ks;
        }
      } else {
        forall k | k in ks ensures !Occurs(k, s) {
          if k != ks[0] {
            assert k in ks[1..];
          }
        }
      }
    }
  }
}
