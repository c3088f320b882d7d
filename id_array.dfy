/** Reading the classifier's list of accepted ids out of free text: the
    leftmost match of the regular expression `\[[\d,\s]*\]`, then that
    substring parsed as a JSON array of natural numbers. Both back ends do
    exactly this; they differ only in what they do when the parse fails. */
module IdArray {
  import opened Wrappers
  import opened Text

  // ---- the regular expression ------------------------------------------

  /** A character of the class `[\d,\s]`. It never includes `]`. */
  predicate IsBodyChar(c: char) {
    IsDigit(c) || c == ',' || IsSpace(c)
  }

  /** `s[i..j]` is an occurrence of `\[[\d,\s]*\]`. */
  predicate IsMatch(s: string, i: int, j: int) {
    && 0 <= i && i + 2 <= j <= |s|
    && s[i] == '[' && s[j - 1] == ']'
    && forall k :: i < k < j - 1 ==> IsBodyChar(s[k])
  }

  /** `s[i..j]` is the match `re.search` reports: no match starts earlier. */
  ghost predicate IsLeftmostMatch(s: string, i: int, j: int) {
    IsMatch(s, i, j) && forall i2, j2 :: IsMatch(s, i2, j2) ==> i <= i2
  }

  /** A match is determined by where it starts: the class excludes `]`, so
      backtracking never finds a second, shorter match. */
  lemma MatchEndIsUnique(s: string, i: int, j1: int, j2: int)
    requires IsMatch(s, i, j1) && IsMatch(s, i, j2)
    ensures j1 == j2
  {
  }

  /** The end of the maximal run of class characters starting at `k`. */
  function RunEnd(s: string, k: nat): (e: nat)
    requires k <= |s|
    ensures k <= e <= |s|
    ensures forall m :: k <= m < e ==> IsBodyChar(s[m])
    ensures e < |s| ==> !IsBodyChar(s[e])
    decreases |s| - k
  {
    if k == |s| || !IsBodyChar(s[k]) then k else RunEnd(s, k + 1)
  }

  /** Where a match starting at `i` has to end, if there is one. */
  lemma MatchEndsAfterRun(s: string, i: nat, j: int)
    requires i < |s| && IsMatch(s, i, j)
    ensures j == RunEnd(s, i + 1) + 1
  {
  }

  /** `re.search` / `String.prototype.match` from position `from` on. */
  function SearchFrom(s: string, from: nat): (r: Option<(nat, nat)>)
    requires from <= |s|
    ensures r.Some? ==> from <= r.value.0 && IsMatch(s, r.value.0, r.value.1)
    ensures r.Some? ==> forall i, j :: from <= i < r.value.0 ==> !IsMatch(s, i, j)
    ensures r.None? ==> forall i, j :: from <= i ==> !IsMatch(s, i, j)
    decreases |s| - from
  {
    if from == |s| then None
    else
      var e := RunEnd(s, from + 1);
      if s[from] == '[' && e < |s| && s[e] == ']' then Some((from, e + 1))
      else
        assert forall j :: !IsMatch(s, from, j) by {
          forall j | IsMatch(s, from, j) ensures false {
            MatchEndsAfterRun(s, from, j);
          }
        }
        SearchFrom(s, from + 1)
  }

  /** The leftmost match of `\[[\d,\s]*\]` in `s`, as a half-open range. */
  function FindArray(s: string): (r: Option<(nat, nat)>)
    ensures r.Some? ==> IsMatch(s, r.value.0, r.value.1)
    ensures r.Some? ==> forall i, j :: IsMatch(s, i, j) ==> r.value.0 <= i
    ensures r.None? <==> forall i, j :: !IsMatch(s, i, j)
  {
    SearchFrom(s, 0)
  }

  // ---- the JSON array of naturals --------------------------------------

  function SkipJsonSpace(s: string): (r: string)
    ensures |r| <= |s|
    ensures r == [] || !IsJsonSpace(r[0])
  {
    if s != [] && IsJsonSpace(s[0]) then SkipJsonSpace(s[1..]) else s
  }

  /** Length of the leading run of digits. */
  function DigitRun(s: string): (k: nat)
    ensures k <= |s| && AllDigits(s[..k])
    ensures k < |s| ==> !IsDigit(s[k])
  {
    if s != [] && IsDigit(s[0]) then
      var k := 1 + DigitRun(s[1..]);
      assert s[..k] == [s[0]] + s[1..][..k - 1];
      k
    else 0
  }

  /** A JSON integer without sign at the start of `c`: `0`, or a digit
      string not starting with `0`. Gives its value and its length. */
  function ReadNumber(c: string): (r: Option<(nat, nat)>)
    ensures r.Some? ==> 1 <= r.value.1 <= |c|
  {
    var k := DigitRun(c);
    if k == 0 || (k > 1 && c[0] == '0') then None
    else Some((DigitsValue(c[..k]), k))
  }

  /** The elements of a JSON array from its first value up to the closing
      bracket (exclusive): `value (ws "," ws value)* ws`. An empty element,
      a leading zero or two values without a comma between them is a
      syntax error. */
  function ParseElements(c: string): Option<seq<nat>>
    decreases |c|
  {
    match ReadNumber(c)
    case None => None
    case Some((n, k)) =>
      var rest := SkipJsonSpace(c[k..]);
      if rest == [] then Some([n])
      else if rest[0] != ',' then None
      else
        match ParseElements(SkipJsonSpace(rest[1..]))
        case None => None
        case Some(tail) => Some([n] + tail)
  }

  /** A character JSON may hold between the brackets of an array of naturals. */
  predicate IsArrayChar(c: char) {
    IsDigit(c) || c == ',' || IsJsonSpace(c)
  }

  predicate OnlyArrayChars(s: string) {
    forall k :: 0 <= k < |s| ==> IsArrayChar(s[k])
  }

  /** `json.loads` / `JSON.parse` applied to the matched text. It accepts
      every rendering a JSON serializer writes (`ParseRenderRoundTrip`), and
      what it accepts holds nothing but digits, commas and JSON whitespace
      between its brackets. So a vertical tab or form feed, which `\s`
      matches and JSON does not skip, is refused, as are misplaced commas
      and leading zeros. */
  function ParseIdArray(t: string): (r: Option<seq<nat>>)
    ensures r.Some? ==> 2 <= |t| && t[0] == '[' && t[|t| - 1] == ']' && OnlyArrayChars(t[1..|t| - 1])
  {
    if 2 <= |t| && t[0] == '[' && t[|t| - 1] == ']' then
      var inner := SkipJsonSpace(t[1..|t| - 1]);
      assert ParseElements(inner).Some? ==> OnlyArrayChars(t[1..|t| - 1]) by {
        if ParseElements(inner).Some? {
          ParsedElementsChars(inner);
          SkippedSpacesChars(t[1..|t| - 1]);
        }
      }
      SkippedSpacesChars(t[1..|t| - 1]);
      if inner == [] then Some([]) else ParseElements(inner)
    else None
  }

  /** Skipped whitespace is made of array characters. */
  lemma {:induction false} SkippedSpacesChars(s: string)
    ensures OnlyArrayChars(SkipJsonSpace(s)) ==> OnlyArrayChars(s)
    decreases |s|
  {
    if s != [] && IsJsonSpace(s[0]) {
      SkippedSpacesChars(s[1..]);
      if OnlyArrayChars(SkipJsonSpace(s)) {
        forall k | 0 <= k < |s| ensures IsArrayChar(s[k]) {
          if k > 0 {
            assert s[k] == s[1..][k - 1];
          }
        }
      }
    }
  }

  /** Text that a run of `k` digits opens. */
  lemma DigitsThenChars(c: string, k: nat)
    requires k <= |c| && AllDigits(c[..k]) && OnlyArrayChars(c[k..])
    ensures OnlyArrayChars(c)
  {
    forall m | 0 <= m < |c| ensures IsArrayChar(c[m]) {
      if m < k {
        assert c[m] == c[..k][m];
      } else {
        assert c[m] == c[k..][m - k];
      }
    }
  }

  /** Whatever `ParseElements` accepts holds only array characters. */
  lemma {:induction false} ParsedElementsChars(c: string)
    requires ParseElements(c).Some?
    ensures OnlyArrayChars(c)
    decreases |c|
  {
    var k := ReadNumber(c).value.1;
    var rest := SkipJsonSpace(c[k..]);
    if rest != [] {
      var tail := rest[1..];
      ParsedElementsChars(SkipJsonSpace(tail));
      SkippedSpacesChars(tail);
      forall m | 0 <= m < |rest| ensures IsArrayChar(rest[m]) {
        if m > 0 {
          assert rest[m] == tail[m - 1];
        }
      }
    }
    SkippedSpacesChars(c[k..]);
    DigitsThenChars(c, k);
  }

  /** What the response text yields. */
  datatype Extracted =
    | NoArray               // no substring matches the regex
    | Malformed             // a match, but not valid JSON
    | Ids(ids: seq<nat>)    // the parsed array

  /** Only the leftmost match is read: it yields ids exactly when it parses,
      and then its ids; any later array is ignored. */
  function ExtractIds(text: string): (r: Extracted)
    ensures r.NoArray? <==> forall i, j :: !IsMatch(text, i, j)
    ensures r.Ids? ==> exists i, j :: IsMatch(text, i, j) && ParseIdArray(text[i..j]) == Some(r.ids)
    ensures forall i, j :: IsLeftmostMatch(text, i, j) ==>
              && (r.Ids? <==> ParseIdArray(text[i..j]).Some?)
              && (r.Ids? ==> ParseIdArray(text[i..j]) == Some(r.ids))
  {
    match FindArray(text)
    case None => NoArray
    case Some((i, j)) =>
      assert forall i2, j2 :: IsLeftmostMatch(text, i2, j2) ==> i2 == i && j2 == j by {
        forall i2, j2 | IsLeftmostMatch(text, i2, j2) ensures i2 == i && j2 == j {
          MatchEndIsUnique(text, i, j2, j);
        }
      }
      match ParseIdArray(text[i..j])
      case None => Malformed
      case Some(ids) => Ids(ids)
  }

  // ---- rendering, the inverse of parsing --------------------------------

  /** A separator as JSON serializers write one: a comma followed by JSON
      whitespace (`", "` for Python's json.dumps, `","` for JSON.stringify). */
  predicate IsSeparator(sep: string) {
    |sep| >= 1 && sep[0] == ',' && forall i :: 1 <= i < |sep| ==> IsJsonSpace(sep[i])
  }

  function JoinIds(ids: seq<nat>, sep: string): string
  {
    if ids == [] then ""
    else if |ids| == 1 then ShowNat(ids[0])
    else ShowNat(ids[0]) + sep + JoinIds(ids[1..], sep)
  }

  function Render(ids: seq<nat>, sep: string): string
  {
    "[" + JoinIds(ids, sep) + "]"
  }

  lemma {:induction false} DigitRunOfDigits(a: string, rest: string)
    requires AllDigits(a) && (rest == [] || !IsDigit(rest[0]))
    ensures DigitRun(a + rest) == |a|
    decreases |a|
  {
    if a != [] {
      assert (a + rest)[1..] == a[1..] + rest;
      DigitRunOfDigits(a[1..], rest);
    }
  }

  lemma {:induction false} SkipJsonSpacePrefix(w: string, t: string)
    requires forall i :: 0 <= i < |w| ==> IsJsonSpace(w[i])
    requires t == [] || !IsJsonSpace(t[0])
    ensures SkipJsonSpace(w + t) == t
    decreases |w|
  {
    if w != [] {
      assert (w + t)[1..] == w[1..] + t;
      SkipJsonSpacePrefix(w[1..], t);
    }
  }

  lemma {:induction false} JoinIdsShape(ids: seq<nat>, sep: string)
    requires IsSeparator(sep)
    ensures ids != [] ==> |JoinIds(ids, sep)| > 0 && IsDigit(JoinIds(ids, sep)[0])
    ensures forall k :: 0 <= k < |JoinIds(ids, sep)| ==> IsBodyChar(JoinIds(ids, sep)[k])
    decreases |ids|
  {
    if |ids| > 1 {
      JoinIdsShape(ids[1..], sep);
      var a, b := ShowNat(ids[0]), JoinIds(ids[1..], sep);
      assert JoinIds(ids, sep) == a + sep + b;
      forall k | 0 <= k < |a + sep + b| ensures IsBodyChar((a + sep + b)[k]) {
        if k < |a| {
          assert (a + sep + b)[k] == a[k];
        } else if k < |a| + |sep| {
          assert (a + sep + b)[k] == sep[k - |a|];
        } else {
          assert (a + sep + b)[k] == b[k - |a| - |sep|];
        }
      }
    }
  }

  /** A numeral followed by a non-digit is read as one value. */
  lemma ReadNumeral(n: nat, rest: string)
    requires rest == [] || !IsDigit(rest[0])
    ensures ReadNumber(ShowNat(n) + rest) == Some((n, |ShowNat(n)|))
  {
    var a := ShowNat(n);
    DigitRunOfDigits(a, rest);
    assert (a + rest)[..|a|] == a;
    DigitsValueOfShowNat(n);
  }

  /** One value followed by a separator and the rest of the elements. */
  lemma ParseValueThenSeparator(n: nat, sep: string, tail: string)
    requires IsSeparator(sep)
    requires tail != [] && IsDigit(tail[0])
    ensures ParseElements(ShowNat(n) + sep + tail) ==
      match ParseElements(tail)
      case None => None
      case Some(t) => Some([n] + t)
  {
    var a := ShowNat(n);
    SeparatorAfter(a, sep, tail);
    ReadNumeral(n, sep + tail);
    SkipJsonSpacePrefix(sep[1..], tail);
    assert SkipJsonSpace((a + sep + tail)[|a| + 1..]) == tail;
    ParseAfterValue(a + sep + tail, n, |a|);
  }

  /** Where the separator's comma and its trailing whitespace sit. */
  lemma SeparatorAfter(a: string, sep: string, tail: string)
    requires IsSeparator(sep)
    ensures a + sep + tail == a + (sep + tail)
    ensures (a + sep + tail)[|a|] == ','
    ensures (a + sep + tail)[|a| + 1..] == sep[1..] + tail
  {
  }

  /** After a value comes either the end, or a comma and the next value. */
  lemma ParseAfterValue(c: string, n: nat, k: nat)
    requires ReadNumber(c) == Some((n, k))
    requires k < |c| && c[k] == ','
    ensures ParseElements(c) ==
      match ParseElements(SkipJsonSpace(c[k + 1..]))
      case None => None
      case Some(t) => Some([n] + t)
  {
    assert c[k..][0] == ',' && c[k..][1..] == c[k + 1..];
  }

  lemma ParseSingleValue(n: nat)
    ensures ParseElements(ShowNat(n)) == Some([n])
  {
    var a := ShowNat(n);
    assert a == a + [];
    ReadNumeral(n, []);
    assert a[|a|..] == [];
  }

  lemma {:induction false} ParseElementsOfJoin(ids: seq<nat>, sep: string)
    requires ids != [] && IsSeparator(sep)
    ensures ParseElements(JoinIds(ids, sep)) == Some(ids)
    decreases |ids|
  {
    if |ids| == 1 {
      ParseSingleValue(ids[0]);
      assert ids == [ids[0]];
    } else {
      JoinIdsShape(ids[1..], sep);
      ParseValueThenSeparator(ids[0], sep, JoinIds(ids[1..], sep));
      ParseElementsOfJoin(ids[1..], sep);
      assert ids == [ids[0]] + ids[1..];
    }
  }

  /** Parsing inverts rendering, for any separator a JSON serializer uses. */
  lemma ParseRenderRoundTrip(ids: seq<nat>, sep: string)
    requires IsSeparator(sep)
    ensures ParseIdArray(Render(ids, sep)) == Some(ids)
  {
    var t := Render(ids, sep);
    var j := JoinIds(ids, sep);
    assert t[1..|t| - 1] == j;
    if ids != [] {
      JoinIdsShape(ids, sep);
      SkipJsonSpacePrefix([], j);
      assert [] + j == j;
      ParseElementsOfJoin(ids, sep);
    }
  }

  /** A rendered array found anywhere in free text is what the ids are read
      from, whatever follows it, as long as no `[` comes before it: prose
      around the array and any later array are ignored. */
  lemma ExtractFromProse(pre: string, ids: seq<nat>, sep: string, post: string)
    requires IsSeparator(sep)
    requires forall k :: 0 <= k < |pre| ==> pre[k] != '['
    ensures ExtractIds(pre + Render(ids, sep) + post) == Ids(ids)
  {
    var r := Render(ids, sep);
    var s := pre + r + post;
    var i, j := |pre|, |pre| + |r|;
    JoinIdsShape(ids, sep);
    assert s[i..j] == r;
    forall k | i < k < j - 1 ensures IsBodyChar(s[k]) {
      assert s[k] == JoinIds(ids, sep)[k - i - 1];
    }
    assert IsMatch(s, i, j);
    var m := FindArray(s);
    assert m.Some?;
    assert s[m.value.0] == '[';
    MatchEndIsUnique(s, i, m.value.1, j);
    ParseRenderRoundTrip(ids, sep);
  }

  /** Later arrays are ignored: the first array wins. */
  lemma FirstArrayWins()
    ensures ExtractIds("x [1, 3] y [2]") == Ids([1, 3])
  {
    assert ShowNat(1) == "1" && ShowNat(3) == "3";
    assert "x [1, 3] y [2]" == "x " + Render([1, 3], ", ") + " y [2]";
    ExtractFromProse("x ", [1, 3], ", ", " y [2]");
  }

  /** A value must start with a digit: an empty element is an error. */
  lemma NoValueNoElements(c: string)
    requires c == [] || !IsDigit(c[0])
    ensures ParseElements(c) == None
  {
  }

  lemma IdsInsideProse()
    ensures ExtractIds("some text [1, 3] more text") == Ids([1, 3])
  {
    assert ShowNat(1) == "1" && ShowNat(3) == "3";
    assert "some text [1, 3] more text" == "some text " + Render([1, 3], ", ") + " more text";
    ExtractFromProse("some text ", [1, 3], ", ", " more text");
  }

  /** Text the regex accepts but JSON does not: an empty element, a leading
      zero, two numbers without a comma, a trailing comma, a vertical tab. */
  lemma EmptyElementIsMalformed()
    ensures ParseIdArray("[1,,2]") == None
  {
    var t := "[1,,2]";
    assert t[1..|t| - 1] == "1" + ",,2";
    DigitRunOfDigits("1", ",,2");
    assert ("1" + ",,2")[1..] == ",,2" && ",,2"[1..] == ",2";
    NoValueNoElements(",2");
  }

  lemma LeadingZeroIsMalformed()
    ensures ParseIdArray("[01]") == None
  {
    var t := "[01]";
    assert t[1..|t| - 1] == "01" + "";
    DigitRunOfDigits("01", "");
  }

  lemma MissingCommaIsMalformed()
    ensures ParseIdArray("[1 2]") == None
  {
    var t := "[1 2]";
    assert t[1..|t| - 1] == "1" + " 2";
    DigitRunOfDigits("1", " 2");
    assert (" 2")[1..] == "2";
  }

  lemma TrailingCommaIsMalformed()
    ensures ParseIdArray("[1,]") == None
  {
    var t := "[1,]";
    assert t[1..|t| - 1] == "1" + ",";
    DigitRunOfDigits("1", ",");
    NoValueNoElements(","[1..]);
  }

  /** `\s` matches a vertical tab, JSON whitespace does not. */
  lemma VerticalTabMatches()
    ensures IsMatch("[1,\U{000B}2]", 0, 6)
  {
  }

  lemma VerticalTabIsMalformed()
    ensures ParseIdArray("[1,\U{000B}2]") == None
  {
    var t := "[1,\U{000B}2]";
    assert t[1..|t| - 1] == "1" + ",\U{000B}2";
    DigitRunOfDigits("1", ",\U{000B}2");
    NoValueNoElements("\U{000B}2");
  }

  /** Whitespace JSON allows is skipped; an empty array parses to no ids. */
  lemma EmptyArrays()
    ensures ParseIdArray("[]") == Some([])
    ensures ParseIdArray("[ \n ]") == Some([])
  {
    var t := "[ \n ]";
    assert t[1..|t| - 1] == " \n ";
    SkipJsonSpacePrefix(" \n ", []);
    assert " \n " + [] == " \n ";
  }
}
