/** Character classes and the small string operations the services and routes
    rely on: `strip()`/`trim()`, decimal numerals, and Python's `str.replace`
    with an empty replacement. */
module Text {

  /** `\d` restricted to ASCII, and a JSON number digit. */
  predicate IsDigit(c: char) {
    '0' <= c <= '9'
  }

  /** The ASCII characters that `\s` matches and that `str.strip()` and
      `String.prototype.trim()` remove: space, tab, line feed, carriage return,
      vertical tab, form feed. */
  predicate IsSpace(c: char) {
    c == ' ' || c == '\t' || c == '\n' || c == '\r' || c == '\U{000B}' || c == '\U{000C}'
  }

  /** The whitespace JSON allows between tokens: a strict subset of IsSpace. */
  predicate IsJsonSpace(c: char) {
    c == ' ' || c == '\t' || c == '\n' || c == '\r'
  }

  predicate IsBlank(s: string) {
    forall i :: 0 <= i < |s| ==> IsSpace(s[i])
  }

  /** How many whitespace characters open `s`. */
  function LeadingSpaces(s: string): (k: nat)
    ensures k <= |s|
    ensures forall i :: 0 <= i < k ==> IsSpace(s[i])
    ensures k < |s| ==> !IsSpace(s[k])
    decreases |s|
  {
    if s != [] && IsSpace(s[0]) then 1 + LeadingSpaces(s[1..]) else 0
  }

  /** How many whitespace characters close `s`. */
  function TrailingSpaces(s: string): (k: nat)
    ensures k <= |s|
    ensures forall i :: |s| - k <= i < |s| ==> IsSpace(s[i])
    ensures k < |s| ==> !IsSpace(s[|s| - k - 1])
    decreases |s|
  {
    if s != [] && IsSpace(s[|s| - 1]) then 1 + TrailingSpaces(s[..|s| - 1]) else 0
  }

  /** `s.strip()` in Python, `s.trim()` in JavaScript: the text between the
      leading and the trailing whitespace. A query is rejected by both
      front ends exactly when this is empty. */
  function Strip(s: string): (r: string)
    ensures r == [] <==> IsBlank(s)
    ensures r != [] ==> !IsSpace(r[0]) && !IsSpace(r[|r| - 1])
    ensures |r| <= |s|
  {
    var b := TrailingSpaces(s);
    if b == |s| then []
    else
      // s[|s| - b - 1] is not whitespace, so the leading run stops before it
      var a := LeadingSpaces(s);
      assert a <= |s| - b - 1;
      s[a..|s| - b]
  }

  // ---- decimal numerals -------------------------------------------------

  function DigitChar(d: nat): (c: char)
    requires d < 10
    ensures IsDigit(c)
  {
    ('0' as int + d) as char
  }

  function DigitValue(c: char): (d: nat)
    requires IsDigit(c)
    ensures d < 10
  {
    c as int - '0' as int
  }

  predicate AllDigits(s: string) {
    forall i :: 0 <= i < |s| ==> IsDigit(s[i])
  }

  /** The value of a string of decimal digits. */
  function DigitsValue(s: string): nat
    requires AllDigits(s)
  {
    if s == [] then 0 else DigitsValue(s[..|s| - 1]) * 10 + DigitValue(s[|s| - 1])
  }

  /** The shortest decimal numeral of `n`, as `str(n)` and JSON write it. */
  function ShowNat(n: nat): (s: string)
    ensures |s| >= 1 && AllDigits(s)
    ensures |s| == 1 <==> n < 10
    ensures s[0] == '0' <==> n == 0
  {
    if n < 10 then [DigitChar(n)] else ShowNat(n / 10) + [DigitChar(n % 10)]
  }

  lemma {:induction false} DigitsValueOfShowNat(n: nat)
    ensures DigitsValue(ShowNat(n)) == n
  {
    if n >= 10 {
      var s := ShowNat(n);
      assert s[..|s| - 1] == ShowNat(n / 10);
      DigitsValueOfShowNat(n / 10);
    }
  }

  // ---- replace-all -----------------------------------------------------

  predicate StartsWith(s: string, prefix: string) {
    |prefix| <= |s| && s[..|prefix|] == prefix
  }

  /** `p` occurs somewhere in `s`. */
  predicate Contains(s: string, p: string)
    decreases |s|
  {
    StartsWith(s, p) || (s != [] && Contains(s[1..], p))
  }

  /** Python's `s.replace(p, "")`: every non-overlapping occurrence of `p`,
      scanning left to right, is deleted. */
  function RemoveAll(s: string, p: string): (r: string)
    requires p != []
    ensures |r| <= |s|
    ensures !Contains(s, p) ==> r == s
    decreases |s|
  {
    if StartsWith(s, p) then RemoveAll(s[|p|..], p)
    else if s == [] then []
    else [s[0]] + RemoveAll(s[1..], p)
  }

  /** Something is always removed when `p` occurs: the result is at least
      one occurrence shorter. */
  lemma {:induction false} RemoveAllShortens(s: string, p: string)
    requires p != [] && Contains(s, p)
    ensures |RemoveAll(s, p)| <= |s| - |p|
    decreases |s|
  {
    if !StartsWith(s, p) {
      RemoveAllShortens(s[1..], p);
    }
  }

  /** A text whose first character cannot start `p` keeps that character. */
  lemma RemoveAllKeepsFirst(s: string, p: string)
    requires p != [] && s != [] && s[0] != p[0]
    ensures RemoveAll(s, p) == [s[0]] + RemoveAll(s[1..], p)
  {
    assert !StartsWith(s, p) by {
      if |p| <= |s| {
        assert s[..|p|][0] == s[0];
      }
    }
  }

  /** A text none of whose characters can start `p` passes through unchanged
      in front of whatever follows it. */
  lemma {:induction false} RemoveAllKeepsPrefix(x: string, t: string, p: string)
    requires p != []
    requires forall i :: 0 <= i < |x| ==> x[i] != p[0]
    ensures RemoveAll(x + t, p) == x + RemoveAll(t, p)
    decreases |x|
  {
    if x == [] {
      assert x + t == t;
    } else {
      var y, xt := x[1..], x + t;
      assert xt[0] == x[0] && xt[1..] == y + t;
      RemoveAllKeepsFirst(xt, p);
      RemoveAllKeepsPrefix(y, t, p);
      calc {
        RemoveAll(xt, p);
        [x[0]] + RemoveAll(y + t, p);
        [x[0]] + (y + RemoveAll(t, p));
        { assert [x[0]] + y == x; }
        x + RemoveAll(t, p);
      }
    }
  }

  /** An occurrence of `p` behind a text that cannot start `p` is deleted,
      and the scan goes on after it. */
  lemma RemoveAllDeletesOccurrence(x: string, t: string, p: string)
    requires p != []
    requires forall i :: 0 <= i < |x| ==> x[i] != p[0]
    ensures RemoveAll(x + p + t, p) == x + RemoveAll(t, p)
  {
    assert x + p + t == x + (p + t);
    RemoveAllKeepsPrefix(x, p + t, p);
    assert (p + t)[..|p|] == p && (p + t)[|p|..] == t;
  }
}
