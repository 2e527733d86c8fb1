/** How a confidence is printed into a diagnosis and read back out of it. */
module Confidence {
  import opened Strings

  /** The outcome of searching a text for a confidence: the pattern may be absent, the matched
      characters may not form a number, or they may. */
  datatype Reading = Absent | Malformed | Number(value: real)

  const DIGITS := "0123456789"
  const LABEL := "confidence:"

  function Tenths(c: real): int {
    var scaled := c * 10.0;
    var down := scaled.Floor;
    var rest := scaled - down as real;
    if rest < 0.5 then down
    else if rest > 0.5 then down + 1
    else if down % 2 == 0 then down else down + 1
  }

  /** One decimal, half to even, for a value between nought and one. */
  function Format(c: real): string
    requires 0.0 <= c <= 1.0
  {
    if Tenths(c) == 10 then "1.0" else "0." + [DIGITS[Tenths(c)]]
  }

  predicate IsNumeric(c: char) {
    '0' <= c <= '9' || c == '.'
  }

  function SkipSpaces(text: string, i: nat): (j: nat)
    requires i <= |text|
    ensures i <= j <= |text|
    decreases |text| - i
  {
    if i < |text| && IsSpace(text[i]) then SkipSpaces(text, i + 1) else i
  }

  function SkipNumeric(text: string, i: nat): (j: nat)
    requires i <= |text|
    ensures i <= j <= |text|
    decreases |text| - i
  {
    if i < |text| && IsNumeric(text[i]) then SkipNumeric(text, i + 1) else i
  }

  /** The label, any blanks, and at least one digit or point. */
  predicate MatchesAt(text: string, i: nat)
    requires i <= |text|
  {
    && i + |LABEL| <= |text| && Lower(text[i..i + |LABEL|]) == LABEL
    && var start := SkipSpaces(text, i + |LABEL|); SkipNumeric(text, start) > start
  }

  /** The run of digits and points after the label. */
  function Captured(text: string, i: nat): string
    requires i <= |text| && MatchesAt(text, i)
  {
    var start := SkipSpaces(text, i + |LABEL|);
    text[start..SkipNumeric(text, start)]
  }

  /** The characters captured by the leftmost match at or after position `i`, or none. */
  function Search(text: string, i: nat): string
    requires i <= |text|
    decreases |text| - i
  {
    if MatchesAt(text, i) then Captured(text, i)
    else if i < |text| then Search(text, i + 1)
    else ""
  }

  function DigitValue(c: char): int {
    c as int - '0' as int
  }

  function Whole(s: string): real {
    if s == "" then 0.0 else Whole(s[..|s| - 1]) * 10.0 + DigitValue(s[|s| - 1]) as real
  }

  function Fraction(s: string): real {
    if s == "" then 0.0 else (DigitValue(s[0]) as real + Fraction(s[1..])) / 10.0
  }

  function FirstDot(s: string): (i: nat)
    ensures i <= |s|
  {
    if s == "" || s[0] == '.' then 0 else 1 + FirstDot(s[1..])
  }

  /** What stands before the first point, and what after it. */
  function WholePart(s: string): string {
    s[..FirstDot(s)]
  }

  function FractionPart(s: string): string {
    if FirstDot(s) < |s| then s[FirstDot(s) + 1..] else ""
  }

  /** Digits with at most one point and at least one digit form a number; anything else does not. */
  function ParseNumber(s: string): Reading {
    if '.' in FractionPart(s) || WholePart(s) + FractionPart(s) == "" then Malformed
    else Number(Whole(WholePart(s)) + Fraction(FractionPart(s)))
  }

  function ReadConfidence(text: string): Reading {
    var captured := Search(text, 0);
    if captured == "" then Absent else ParseNumber(captured)
  }

  // What is read.

  lemma {:induction false} SearchIsLeftmost(text: string, i: nat, j: nat)
    requires i <= j <= |text| && forall k :: i <= k < j ==> !MatchesAt(text, k)
    ensures MatchesAt(text, j) ==> Search(text, i) == Captured(text, j)
    ensures j == |text| && !MatchesAt(text, j) ==> Search(text, i) == ""
    decreases j - i
  {
    if i < j {
      SearchIsLeftmost(text, i + 1, j);
    }
  }

  lemma {:induction false} SpacesEnd(text: string, i: nat, j: nat)
    requires i <= j <= |text| && forall k :: i <= k < j ==> IsSpace(text[k])
    requires j < |text| ==> !IsSpace(text[j])
    ensures SkipSpaces(text, i) == j
    decreases j - i
  {
    if i < j {
      SpacesEnd(text, i + 1, j);
    }
  }

  lemma {:induction false} NumericEnds(text: string, i: nat, j: nat)
    requires i <= j <= |text| && forall k :: i <= k < j ==> IsNumeric(text[k])
    requires j < |text| ==> !IsNumeric(text[j])
    ensures SkipNumeric(text, i) == j
    decreases j - i
  {
    if i < j {
      NumericEnds(text, i + 1, j);
    }
  }

  lemma {:induction false} SkippedSpaces(text: string, i: nat)
    requires i <= |text|
    ensures var j := SkipSpaces(text, i);
      (forall k :: i <= k < j ==> IsSpace(text[k])) && (j < |text| ==> !IsSpace(text[j]))
    decreases |text| - i
  {
    if i < |text| && IsSpace(text[i]) {
      SkippedSpaces(text, i + 1);
    }
  }

  lemma {:induction false} SkippedNumeric(text: string, i: nat)
    requires i <= |text|
    ensures var j := SkipNumeric(text, i);
      (forall k :: i <= k < j ==> IsNumeric(text[k])) && (j < |text| ==> !IsNumeric(text[j]))
    decreases |text| - i
  {
    if i < |text| && IsNumeric(text[i]) {
      SkippedNumeric(text, i + 1);
    }
  }

  /** A match at position `i`: the label in whatever case, blanks up to `j`, and a run of digits and points
      up to `k` that cannot be made longer. */
  predicate MatchIs(text: string, i: nat, j: nat, k: nat) {
    && i + 11 <= j < k <= |text|
    && AlikeAt(text[i..i + 11], 0, "confidence:")
    && (forall n :: i + 11 <= n < j ==> IsSpace(text[n]))
    && (forall n :: j <= n < k ==> text[n] == '.' || '0' <= text[n] <= '9')
    && (k < |text| ==> text[k] != '.' && !('0' <= text[k] <= '9'))
  }

  lemma LabelFolds(word: string)
    requires |word| == 11
    ensures Lower(word) == LABEL <==> AlikeAt(word, 0, "confidence:")
  {
    assert |LABEL| == 11 && Lower(LABEL) == LABEL;
    FoldedOccursAt(word, 0, LABEL);
    assert Lower(word)[0..11] == Lower(word);
  }

  lemma MatchIsCaptured(text: string, i: nat, j: nat, k: nat)
    requires MatchIs(text, i, j, k)
    ensures MatchesAt(text, i) && Captured(text, i) == text[j..k]
  {
    assert |LABEL| == 11;
    LabelFolds(text[i..i + 11]);
    assert IsNumeric(text[j]);
    SpacesEnd(text, i + 11, j);
    NumericEnds(text, j, k);
  }

  /** The pattern matches at a position exactly in these cases, and captures the run. */
  lemma MatchesIff(text: string, i: nat)
    requires i <= |text|
    ensures MatchesAt(text, i) <==> exists j: nat, k: nat :: MatchIs(text, i, j, k)
    ensures forall j: nat, k: nat :: MatchIs(text, i, j, k) ==> MatchesAt(text, i) && Captured(text, i) == text[j..k]
  {
    forall j: nat, k: nat | MatchIs(text, i, j, k)
      ensures MatchesAt(text, i) && Captured(text, i) == text[j..k]
    {
      MatchIsCaptured(text, i, j, k);
    }
    if MatchesAt(text, i) {
      assert |LABEL| == 11;
      var start := SkipSpaces(text, i + 11);
      LabelFolds(text[i..i + 11]);
      SkippedSpaces(text, i + 11);
      SkippedNumeric(text, start);
      assert MatchIs(text, i, start, SkipNumeric(text, start));
    }
  }

  // The value of a number.

  /** The digits read as one whole number. */
  function AllDigits(s: string): int {
    if s == "" then 0 else AllDigits(s[..|s| - 1]) * 10 + DigitValue(s[|s| - 1])
  }

  function TenTo(n: nat): int {
    if n == 0 then 1 else 10 * TenTo(n - 1)
  }

  lemma {:induction false} WholeIsDigits(s: string)
    ensures Whole(s) == AllDigits(s) as real
  {
    if s != "" {
      WholeIsDigits(s[..|s| - 1]);
    }
  }

  lemma {:induction false} DigitsFront(s: string)
    requires s != ""
    ensures AllDigits(s) == DigitValue(s[0]) * TenTo(|s| - 1) + AllDigits(s[1..])
  {
    if |s| == 1 {
      assert s[..0] == "" && s[1..] == "";
    } else {
      var init := s[..|s| - 1];
      DigitsFront(init);
      assert init[1..] == s[1..][..|s| - 2];
      assert TenTo(|s| - 1) == 10 * TenTo(|s| - 2);
    }
  }

  lemma Scaled(d: real, f: real, t: real)
    ensures (d + f) / 10.0 * (10.0 * t) == d * t + f * t
  {
    var x := (d + f) / 10.0;
    assert x * (10.0 * t) == (x * 10.0) * t;
    assert x * 10.0 == d + f;
  }

  /** `value` is `count` over `unit`. */
  predicate Scales(value: real, unit: int, count: int) {
    value * unit as real == count as real
  }

  lemma OneMoreDigit(d: int, f: real, t: int, rest: int)
    requires Scales(f, t, rest)
    ensures Scales((d as real + f) / 10.0, 10 * t, d * t + rest)
  {
    Scaled(d as real, f, t as real);
    assert (10 * t) as real == 10.0 * t as real;
    assert (d * t) as real == d as real * t as real;
  }

  lemma FractionStep(s: string)
    requires s != ""
    ensures Fraction(s) == (DigitValue(s[0]) as real + Fraction(s[1..])) / 10.0
    ensures TenTo(|s|) == 10 * TenTo(|s| - 1)
  {
  }

  lemma {:induction false} FractionIsDigits(s: string)
    ensures Scales(Fraction(s), TenTo(|s|), AllDigits(s))
  {
    if s != "" {
      var d, f, t, rest := DigitValue(s[0]), Fraction(s[1..]), TenTo(|s| - 1), AllDigits(s[1..]);
      FractionIsDigits(s[1..]);
      DigitsFront(s);
      OneMoreDigit(d, f, t, rest);
      FractionStep(s);
    }
  }

  /** What a number is worth: its digits before the point, and those after it over the power of ten of their
      count. */
  ghost predicate IsWorth(s: string, whole: string, fraction: string, value: real) {
    && ((s == whole && fraction == "") || s == whole + "." + fraction)
    && '.' !in whole && '.' !in fraction && whole + fraction != ""
    && Scales(value - AllDigits(whole) as real, TenTo(|fraction|), AllDigits(fraction))
  }

  lemma {:induction false} NoDotBefore(s: string)
    ensures '.' !in s[..FirstDot(s)]
  {
    if s != "" && s[0] != '.' {
      NoDotBefore(s[1..]);
      assert s[..FirstDot(s)] == [s[0]] + s[1..][..FirstDot(s[1..])];
    }
  }

  function Points(s: string): nat {
    if s == "" then 0 else (if s[0] == '.' then 1 else 0) + Points(s[1..])
  }

  lemma {:induction false} PointsAfterFirst(s: string)
    ensures var dot := FirstDot(s);
      if dot == |s| then Points(s) == 0
      else s[dot] == '.' && Points(s) == 1 + Points(s[dot + 1..])
  {
    if s != "" && s[0] != '.' {
      PointsAfterFirst(s[1..]);
      var dot := FirstDot(s[1..]);
      if dot < |s| - 1 {
        assert s[1..][dot + 1..] == s[dot + 2..];
      }
    }
  }

  lemma SplitAround(s: string, dot: nat)
    requires dot < |s| && s[dot] == '.'
    ensures s == s[..dot] + "." + s[dot + 1..]
  {
  }

  lemma DotSplits(s: string)
    ensures '.' !in WholePart(s)
    ensures (s == WholePart(s) && FractionPart(s) == "") || s == WholePart(s) + "." + FractionPart(s)
  {
    NoDotBefore(s);
    PointsAfterFirst(s);
    if FirstDot(s) < |s| {
      SplitAround(s, FirstDot(s));
    }
  }

  lemma NumberIsWorth(s: string)
    requires ParseNumber(s).Number?
    ensures exists whole, fraction :: IsWorth(s, whole, fraction, ParseNumber(s).value)
  {
    var whole, fraction := WholePart(s), FractionPart(s);
    DotSplits(s);
    WholeIsDigits(whole);
    FractionIsDigits(fraction);
    var value, rest := ParseNumber(s).value, Fraction(fraction);
    assert value - AllDigits(whole) as real == rest;
    assert Scales(value - AllDigits(whole) as real, TenTo(|fraction|), AllDigits(fraction));
    assert IsWorth(s, whole, fraction, value);
  }

  lemma {:induction false} PointsOccur(s: string)
    ensures Points(s) > 0 <==> '.' in s
    ensures Points(s) <= |s|
  {
    if s != "" {
      PointsOccur(s[1..]);
      assert s == [s[0]] + s[1..];
    }
  }

  /** A captured run is no number exactly if it has two points or more, or nothing but a point. */
  lemma MalformedIff(s: string)
    requires s != ""
    ensures ParseNumber(s) == Malformed <==> Points(s) > 1 || s == "."
  {
    PointsAfterFirst(s);
    var dot := FirstDot(s);
    if dot < |s| {
      PointsOccur(s[dot + 1..]);
      assert s[..dot] + s[dot + 1..] == "" <==> |s| == 1;
    } else {
      assert s[..dot] == s;
    }
  }

  /** The leftmost match of the pattern. */
  ghost predicate FirstMatch(text: string, i: nat, j: nat, k: nat) {
    MatchIs(text, i, j, k) && forall n: nat, start: nat, end: nat :: n < i ==> !MatchIs(text, n, start, end)
  }

  lemma {:induction false} NextMatch(text: string, n: nat) returns (i: nat)
    requires n <= |text|
    ensures n <= i <= |text| && (forall k :: n <= k < i ==> !MatchesAt(text, k))
    ensures MatchesAt(text, i) || i == |text|
    decreases |text| - n
  {
    if MatchesAt(text, n) || n == |text| {
      i := n;
    } else {
      i := NextMatch(text, n + 1);
    }
  }

  lemma ReadsRun(text: string, i: nat, j: nat, k: nat)
    requires FirstMatch(text, i, j, k)
    ensures j < k <= |text| && ReadConfidence(text) == ParseNumber(text[j..k])
  {
    MatchesIff(text, i);
    forall n: nat | n < i
      ensures !MatchesAt(text, n)
    {
      MatchesIff(text, n);
    }
    SearchIsLeftmost(text, 0, i);
  }

  /** How a text reads: as nothing exactly if the pattern occurs nowhere; otherwise as what is captured at its
      leftmost place, which is no number if it has two points or more, or is a single point. */
  lemma ReadingIs(text: string)
    ensures ReadConfidence(text) == Absent <==> forall i: nat, j: nat, k: nat :: !FirstMatch(text, i, j, k)
    ensures forall i: nat, j: nat, k: nat :: FirstMatch(text, i, j, k) ==>
              && j < k <= |text|
              && (ReadConfidence(text) == Malformed <==> Points(text[j..k]) > 1 || text[j..k] == ".")
              && (ReadConfidence(text).Number? ==> exists whole, fraction :: IsWorth(text[j..k], whole, fraction, ReadConfidence(text).value))
  {
    forall i: nat, j: nat, k: nat | FirstMatch(text, i, j, k)
      ensures j < k <= |text| && ReadConfidence(text) != Absent
      ensures ReadConfidence(text) == Malformed <==> Points(text[j..k]) > 1 || text[j..k] == "."
      ensures ReadConfidence(text).Number? ==> exists whole, fraction :: IsWorth(text[j..k], whole, fraction, ReadConfidence(text).value)
    {
      ReadsRun(text, i, j, k);
      MalformedIff(text[j..k]);
      if ReadConfidence(text).Number? {
        NumberIsWorth(text[j..k]);
      }
    }
    var i := NextMatch(text, 0);
    SearchIsLeftmost(text, 0, i);
    MatchesIff(text, i);
    if MatchesAt(text, i) {
      var j: nat, k: nat :| MatchIs(text, i, j, k);
      forall n: nat, start: nat, end: nat | n < i
        ensures !MatchIs(text, n, start, end)
      {
        MatchesIff(text, n);
      }
      assert FirstMatch(text, i, j, k);
    }
  }

  // Printing and reading agree.

  lemma TenthsNearest(c: real)
    requires 0.0 <= c <= 1.0
    ensures 0 <= Tenths(c) <= 10
    ensures -0.05 <= Tenths(c) as real / 10.0 - c <= 0.05
    ensures Tenths(c) as real / 10.0 - c == 0.05 || c - Tenths(c) as real / 10.0 == 0.05 ==> Tenths(c) % 2 == 0
  {
    var scaled := c * 10.0;
    assert 0.0 <= scaled <= 10.0;
  }

  /** Characters before the label that cannot begin it are skipped. */
  lemma {:induction false} SearchSkips(text: string, i: nat, j: nat)
    requires i <= j <= |text|
    requires forall k :: i <= k < j ==> LowerChar(text[k]) != 'c'
    ensures Search(text, i) == Search(text, j)
    decreases j - i
  {
    if i < j {
      if i + |LABEL| <= |text| {
        assert Lower(text[i..i + |LABEL|])[0] == LowerChar(text[i]) != LABEL[0];
      }
      SearchSkips(text, i + 1, j);
    }
  }

  lemma ParseFormatted(c: real)
    requires 0.0 <= c <= 1.0
    ensures ParseNumber(Format(c)) == Number(Tenths(c) as real / 10.0)
    ensures |Format(c)| == 3 && forall k :: 0 <= k < 3 ==> IsNumeric(Format(c)[k])
  {
    TenthsNearest(c);
    var t := Tenths(c);
    if t == 10 {
      var s := "1.0";
      assert s[1..] == ".0" && s[2..] == "0";
      assert FirstDot(s) == 1 + FirstDot(s[1..]) == 1;
      assert s[..1] == "1" && "1"[..0] == "" && "0"[1..] == "";
      assert Whole("1") == 1.0 && Fraction("0") == 0.0;
    } else {
      var d := DIGITS[t];
      assert DigitValue(d) == t;
      var s := "0." + [d];
      assert s[1..] == "." + [d] && s[2..] == [d];
      assert FirstDot(s) == 1 + FirstDot(s[1..]) == 1;
      assert s[..1] == "0" && "0"[..0] == "" && [d][1..] == "";
      assert Whole("0") == 0.0 && Fraction([d]) == t as real / 10.0;
    }
  }

  lemma {:induction false} SkipNumericRun(text: string, i: nat, j: nat)
    requires i <= j < |text| && !IsNumeric(text[j])
    requires forall k :: i <= k < j ==> IsNumeric(text[k])
    ensures SkipNumeric(text, i) == j
    decreases j - i
  {
    if i < j {
      SkipNumericRun(text, i + 1, j);
    }
  }

  /** The label, one blank and a number delimited by a non-numeric character are matched. */
  lemma SearchMatches(text: string, at: nat, end: nat)
    requires at + |LABEL| + 1 < end < |text|
    requires text[at..at + |LABEL|] == LABEL && text[at + |LABEL|] == ' '
    requires forall k :: at + |LABEL| + 1 <= k < end ==> IsNumeric(text[k])
    requires !IsNumeric(text[end])
    ensures Search(text, at) == text[at + |LABEL| + 1..end]
  {
    var start := at + |LABEL| + 1;
    assert Lower(LABEL) == LABEL;
    assert !IsSpace(text[start]) by {
      assert IsNumeric(text[start]);
    }
    assert SkipSpaces(text, start - 1) == SkipSpaces(text, start) == start;
    SkipNumericRun(text, start, end);
  }

  lemma PrintedIsCaptured(prefix: string, number: string, rest: string)
    requires |number| == 3 && forall k :: 0 <= k < 3 ==> IsNumeric(number[k])
    requires forall k :: 0 <= k < |prefix| ==> LowerChar(prefix[k]) != 'c'
    ensures Search(prefix + "confidence: " + number + ")" + rest, 0) == number
  {
    var text := prefix + "confidence: " + number + ")" + rest;
    var at := |prefix|;
    SearchSkips(text, 0, at);
    assert text == prefix + (LABEL + " ") + number + ")" + rest;
    assert text[at..at + |LABEL|] == LABEL;
    assert text[at + |LABEL| + 1..at + |LABEL| + 4] == number;
    forall k | at + |LABEL| + 1 <= k < at + |LABEL| + 4
      ensures IsNumeric(text[k])
    {
      assert text[k] == number[k - (at + |LABEL| + 1)];
    }
    SearchMatches(text, at, at + |LABEL| + 4);
  }

  /** Reading a printed confidence yields the value rounded to one decimal, whatever text follows
      the closing bracket. */
  lemma ReadPrinted(prefix: string, c: real, rest: string)
    requires 0.0 <= c <= 1.0
    requires forall k :: 0 <= k < |prefix| ==> LowerChar(prefix[k]) != 'c'
    ensures ReadConfidence(prefix + "confidence: " + Format(c) + ")" + rest) == Number(Tenths(c) as real / 10.0)
  {
    ParseFormatted(c);
    PrintedIsCaptured(prefix, Format(c), rest);
  }
}
