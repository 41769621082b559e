/** The one normalisation every captured amount goes through, and the
    thousands-grouped rendering of an amount that it undoes. */
module Amounts {
  import opened Wrappers
  import opened Text

  predicate AllDigits(d: string)
  {
    forall i :: 0 <= i < |d| ==> IsDigit(d[i])
  }

  predicate HasDigit(s: string)
  {
    exists i :: 0 <= i < |s| && IsDigit(s[i])
  }

  /** `re.sub(r"[^\d]", "", s)`: the digits of `s`, in order. */
  function DigitsOf(s: string): (d: string)
    ensures |d| <= |s|
    ensures AllDigits(d)
    ensures d == [] <==> !HasDigit(s)
  {
    if s == [] then []
    else
      var rest := DigitsOf(s[1..]);
      assert HasDigit(s) <==> IsDigit(s[0]) || HasDigit(s[1..]) by {
        if HasDigit(s[1..]) {
          var i :| 0 <= i < |s[1..]| && IsDigit(s[1..][i]);
          assert IsDigit(s[i + 1]);
        }
        if HasDigit(s) && !IsDigit(s[0]) {
          var i :| 0 <= i < |s| && IsDigit(s[i]);
          assert s[1..][i - 1] == s[i];
        }
      }
      (if IsDigit(s[0]) then [s[0]] else []) + rest
  }

  lemma {:induction false} DigitsOfConcat(a: string, b: string)
    ensures DigitsOf(a + b) == DigitsOf(a) + DigitsOf(b)
  {
    if a == [] {
      assert a + b == b;
    } else {
      var ab, head := a + b, if IsDigit(a[0]) then [a[0]] else [];
      assert ab[0] == a[0];
      assert ab[1..] == a[1..] + b;
      assert DigitsOf(ab) == head + DigitsOf(ab[1..]);
      assert DigitsOf(a) == head + DigitsOf(a[1..]);
      DigitsOfConcat(a[1..], b);
      var x, y := DigitsOf(a[1..]), DigitsOf(b);
      assert head + (x + y) == (head + x) + y;
    }
  }

  lemma {:induction false} DigitsOfAllDigits(d: string)
    requires AllDigits(d)
    ensures DigitsOf(d) == d
  {
    if d != [] {
      DigitsOfAllDigits(d[1..]);
    }
  }

  function DigitValue(c: char): (v: nat)
    requires IsDigit(c)
    ensures v < 10
  {
    c as int - '0' as int
  }

  function DigitChar(v: nat): (c: char)
    requires v < 10
    ensures IsDigit(c) && DigitValue(c) == v
  {
    ('0' as int + v) as char
  }

  /** What `int()` makes of a string of decimal digits (leading zeros allowed). */
  function DecimalValue(d: string): nat
    requires AllDigits(d)
  {
    if d == [] then 0 else DecimalValue(d[..|d| - 1]) * 10 + DigitValue(d[|d| - 1])
  }

  /** `int(re.sub(r"[^\d]", "", run))`: raises exactly when `run` holds no digit. */
  function Amount(run: string): (r: Result<nat>)
    ensures r.Err? <==> !HasDigit(run)
  {
    var d := DigitsOf(run);
    if d == [] then Err(InvalidIntLiteral) else Ok(DecimalValue(d))
  }

  /** `Amount` applied to a capture that may be missing; a missing capture is
      not an error. */
  function OptionalAmount(run: Option<string>): (r: Result<Option<nat>>)
    ensures r.Err? <==> run.Some? && !HasDigit(run.value)
    ensures r.Ok? ==> (r.value.Some? <==> run.Some?)
    ensures r.Ok? && r.value.Some? ==> Amount(run.value) == Ok(r.value.value)
  {
    match run
    case None => Ok(None)
    case Some(w) => match Amount(w) { case Ok(v) => Ok(Some(v)) case Err(e) => Err(e) }
  }

  /** `str(n)`: the decimal digits of `n`, without leading zeros. */
  function DecimalString(n: nat): (d: string)
    ensures |d| >= 1 && AllDigits(d)
  {
    if n < 10 then [DigitChar(n)] else DecimalString(n / 10) + [DigitChar(n % 10)]
  }

  /** A digit string with a comma inserted before every group of three digits,
      counted from the right. */
  function GroupDigits(d: string): string
    decreases |d|
  {
    if |d| <= 3 then d else GroupDigits(d[..|d| - 3]) + "," + d[|d| - 3..]
  }

  /** The `{:,}` format of an integer. */
  function GroupThousands(n: nat): string
  {
    GroupDigits(DecimalString(n))
  }

  lemma {:induction false} DecimalStringValue(n: nat)
    ensures DecimalValue(DecimalString(n)) == n
  {
    if n >= 10 {
      DecimalStringValue(n / 10);
      var d := DecimalString(n);
      assert d[..|d| - 1] == DecimalString(n / 10);
    }
  }

  lemma {:induction false} GroupDigitsKeepsDigits(d: string)
    requires AllDigits(d)
    ensures DigitsOf(GroupDigits(d)) == d
    decreases |d|
  {
    if |d| > 3 {
      var h, t := d[..|d| - 3], d[|d| - 3..];
      var g := GroupDigits(h);
      GroupDigitsKeepsDigits(h);
      DigitsOfConcat(g + ",", t);
      DigitsOfConcat(g, ",");
      DigitsOfAllDigits(t);
      assert DigitsOf(",") == [];
      assert h + t == d;
    } else {
      DigitsOfAllDigits(d);
    }
  }

  /** Normalising the grouped rendering of an amount gives the amount back. */
  lemma GroupedAmountRoundTrip(n: nat)
    ensures Amount(GroupThousands(n)) == Ok(n)
  {
    GroupDigitsKeepsDigits(DecimalString(n));
    DecimalStringValue(n);
  }
}
