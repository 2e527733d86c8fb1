/** The few operations on text that the agents rely on: ASCII case folding, substring search,
    stripping, joining and the order-preserving removal of duplicates. */
module Strings {

  function UpperChar(c: char): char {
    if 'a' <= c <= 'z' then c - 'a' + 'A' else c
  }

  function LowerChar(c: char): char {
    if 'A' <= c <= 'Z' then c - 'A' + 'a' else c
  }

  function Upper(s: string): (r: string)
    ensures |r| == |s|
    ensures forall i :: 0 <= i < |s| ==> r[i] == UpperChar(s[i])
  {
    seq(|s|, i requires 0 <= i < |s| => UpperChar(s[i]))
  }

  function Lower(s: string): (r: string)
    ensures |r| == |s|
    ensures forall i :: 0 <= i < |s| ==> r[i] == LowerChar(s[i])
  {
    seq(|s|, i requires 0 <= i < |s| => LowerChar(s[i]))
  }

  predicate OccursAt(text: string, i: nat, pattern: string) {
    i + |pattern| <= |text| && text[i..i + |pattern|] == pattern
  }

  predicate Contains(text: string, pattern: string) {
    exists i | 0 <= i <= |text| :: OccursAt(text, i, pattern)
  }

  predicate StartsWith(text: string, prefix: string) {
    prefix <= text
  }

  predicate IsSpace(c: char) {
    c in " \t\n\r" || c == 11 as char || c == 12 as char
  }

  function StripLeft(s: string): string {
    if s == "" || !IsSpace(s[0]) then s else StripLeft(s[1..])
  }

  function StripRight(s: string): string {
    if s == "" || !IsSpace(s[|s| - 1]) then s else StripRight(s[..|s| - 1])
  }

  function Strip(s: string): string {
    StripRight(StripLeft(s))
  }

  function Join(separator: string, parts: seq<string>): string {
    if |parts| == 0 then ""
    else if |parts| == 1 then parts[0]
    else Join(separator, parts[..|parts| - 1]) + separator + parts[|parts| - 1]
  }

  /** The first occurrence of every element, in order. */
  function Dedup(parts: seq<string>): (r: seq<string>)
    ensures forall p :: p in r <==> p in parts
    ensures forall i, j :: 0 <= i < j < |r| ==> r[i] != r[j]
  {
    if |parts| == 0 then []
    else
      var init := parts[..|parts| - 1];
      var last := parts[|parts| - 1];
      assert parts == init + [last];
      if last in init then Dedup(init) else Dedup(init) + [last]
  }

  lemma {:induction false} DedupGrows(parts: seq<string>, k: nat)
    requires k <= |parts|
    ensures Dedup(parts[..k]) <= Dedup(parts)
  {
    if k < |parts| {
      assert parts[..|parts| - 1][..k] == parts[..k];
      DedupGrows(parts[..|parts| - 1], k);
    } else {
      assert parts[..k] == parts;
    }
  }

  /** The order is that of first occurrences: an element is listed right after the distinct elements
      that occur before it for the first time. */
  lemma DedupKeepsFirstOrder(parts: seq<string>, k: nat)
    requires k < |parts| && parts[k] !in parts[..k]
    ensures |Dedup(parts[..k])| < |Dedup(parts)| && Dedup(parts)[|Dedup(parts[..k])|] == parts[k]
    ensures Dedup(parts[..k]) <= Dedup(parts)
  {
    assert parts[..k + 1][..k] == parts[..k];
    DedupGrows(parts, k + 1);
    DedupGrows(parts, k);
  }

  // Facts about substring search.

  /** An occurrence found by concatenation. */
  lemma ContainsMiddle(before: string, pattern: string, after: string)
    ensures Contains(before + pattern + after, pattern)
  {
    assert OccursAt(before + pattern + after, |before|, pattern);
  }

  lemma LowerConcat(a: string, b: string)
    ensures Lower(a + b) == Lower(a) + Lower(b)
  {
  }

  lemma UpperConcat(a: string, b: string)
    ensures Upper(a + b) == Upper(a) + Upper(b)
  {
  }

  lemma LowerContainsMiddle(before: string, pattern: string, after: string)
    ensures Contains(Lower(before + pattern + after), Lower(pattern))
  {
    LowerConcat(before + pattern, after);
    LowerConcat(before, pattern);
    ContainsMiddle(Lower(before), Lower(pattern), Lower(after));
  }

  lemma UpperContainsMiddle(before: string, pattern: string, after: string)
    ensures Contains(Upper(before + pattern + after), Upper(pattern))
  {
    UpperConcat(before + pattern, after);
    UpperConcat(before, pattern);
    ContainsMiddle(Upper(before), Upper(pattern), Upper(after));
  }

  /** A text without one of the pattern's characters does not contain the pattern. */
  lemma LacksCharacter(text: string, pattern: string, c: char)
    requires c in pattern && c !in text
    ensures !Contains(text, pattern)
  {
    var k :| 0 <= k < |pattern| && pattern[k] == c;
    forall i | 0 <= i <= |text|
      ensures !OccursAt(text, i, pattern)
    {
      if i + |pattern| <= |text| {
        assert text[i + k] in text;
        assert text[i..i + |pattern|][k] == text[i + k];
      }
    }
  }

  lemma UpperLacksCharacter(text: string, pattern: string, c: char)
    requires c in pattern && c !in text && LowerChar(c) !in text
    ensures !Contains(Upper(text), pattern)
  {
    forall i | 0 <= i < |text|
      ensures Upper(text)[i] != c
    {
      assert text[i] in text;
    }
    LacksCharacter(Upper(text), pattern, c);
  }

  /** A pattern without the separator lies wholly on one side of it. */
  lemma SplitAt(a: string, separator: char, b: string, pattern: string)
    requires separator !in pattern
    requires !Contains(a, pattern) && !Contains(b, pattern)
    ensures !Contains(a + [separator] + b, pattern)
  {
    var text := a + [separator] + b;
    forall i | 0 <= i <= |text|
      ensures !OccursAt(text, i, pattern)
    {
      if i + |pattern| > |text| {
      } else if i + |pattern| <= |a| {
        assert text[i..i + |pattern|] == a[i..i + |pattern|];
        assert !OccursAt(a, i, pattern);
      } else if i > |a| {
        var j := i - |a| - 1;
        assert text[i..i + |pattern|] == b[j..j + |pattern|];
        assert !OccursAt(b, j, pattern);
      } else {
        assert text[i..i + |pattern|][|a| - i] == separator;
      }
    }
  }

  lemma UpperSplitAt(a: string, separator: char, b: string, pattern: string)
    requires UpperChar(separator) !in pattern
    requires !Contains(Upper(a), pattern) && !Contains(Upper(b), pattern)
    ensures !Contains(Upper(a + [separator] + b), pattern)
  {
    SplitAt(Upper(a), UpperChar(separator), Upper(b), pattern);
    assert Upper(a + [separator] + b) == Upper(a) + [UpperChar(separator)] + Upper(b);
  }

  /** Stripping removes surrounding blanks and nothing else. */
  lemma StripLeadingSpace(s: string)
    requires |s| > 0 && !IsSpace(s[0]) && !IsSpace(s[|s| - 1])
    ensures Strip(" " + s) == s
  {
    assert (" " + s)[1..] == s;
    assert StripLeft(" " + s) == StripLeft(s) == s;
  }

  // What folding, stripping and joining amount to.

  /** The same character, or the two cases of one letter. */
  predicate SameLetter(a: char, b: char) {
    || a == b
    || ('A' <= a <= 'Z' && b as int == a as int + 32)
    || ('A' <= b <= 'Z' && a as int == b as int + 32)
  }

  predicate AlikeAt(text: string, i: nat, pattern: string) {
    i + |pattern| <= |text| && forall k :: 0 <= k < |pattern| ==> SameLetter(text[i + k], pattern[k])
  }

  /** The pattern occurs somewhere, in whatever case. */
  ghost predicate OccursInAnyCase(text: string, pattern: string) {
    exists i: nat :: AlikeAt(text, i, pattern)
  }

  lemma FoldingIsSameLetter(a: char, b: char)
    ensures LowerChar(a) == LowerChar(b) <==> SameLetter(a, b)
    ensures UpperChar(a) == UpperChar(b) <==> SameLetter(a, b)
  {
  }

  lemma FoldedOccursAt(text: string, i: nat, pattern: string)
    ensures OccursAt(Lower(text), i, Lower(pattern)) <==> AlikeAt(text, i, pattern)
    ensures OccursAt(Upper(text), i, Upper(pattern)) <==> AlikeAt(text, i, pattern)
  {
    if i + |pattern| <= |text| {
      var lower, upper := Lower(text)[i..i + |pattern|], Upper(text)[i..i + |pattern|];
      assert forall k :: 0 <= k < |pattern| ==> lower[k] == LowerChar(text[i + k]) && upper[k] == UpperChar(text[i + k]);
      forall k | 0 <= k < |pattern|
        ensures lower[k] == Lower(pattern)[k] <==> SameLetter(text[i + k], pattern[k])
        ensures upper[k] == Upper(pattern)[k] <==> SameLetter(text[i + k], pattern[k])
      {
        FoldingIsSameLetter(text[i + k], pattern[k]);
      }
    }
  }

  /** Searching with both sides folded finds the pattern in whatever case. */
  lemma FoldedSearch(text: string, pattern: string)
    ensures Contains(Lower(text), Lower(pattern)) <==> OccursInAnyCase(text, pattern)
    ensures Contains(Upper(text), Upper(pattern)) <==> OccursInAnyCase(text, pattern)
  {
    forall i: nat
      ensures OccursAt(Lower(text), i, Lower(pattern)) <==> AlikeAt(text, i, pattern)
      ensures OccursAt(Upper(text), i, Upper(pattern)) <==> AlikeAt(text, i, pattern)
    {
      FoldedOccursAt(text, i, pattern);
    }
    if OccursInAnyCase(text, pattern) {
      var i: nat :| AlikeAt(text, i, pattern);
      assert 0 <= i <= |Lower(text)| && OccursAt(Lower(text), i, Lower(pattern));
      assert 0 <= i <= |Upper(text)| && OccursAt(Upper(text), i, Upper(pattern));
    }
  }

  predicate Blank(s: string) {
    forall i :: 0 <= i < |s| ==> IsSpace(s[i])
  }

  lemma {:induction false} StripLeftIs(s: string) returns (before: string)
    ensures s == before + StripLeft(s) && Blank(before)
    ensures StripLeft(s) != "" ==> !IsSpace(StripLeft(s)[0])
  {
    if s == "" || !IsSpace(s[0]) {
      before := "";
    } else {
      before := StripLeftIs(s[1..]);
      before := [s[0]] + before;
    }
  }

  lemma {:induction false} StripRightIs(s: string) returns (after: string)
    ensures s == StripRight(s) + after && Blank(after)
    ensures StripRight(s) != "" ==> !IsSpace(StripRight(s)[|StripRight(s)| - 1]) && StripRight(s)[0] == s[0]
  {
    if s == "" || !IsSpace(s[|s| - 1]) {
      after := "";
    } else {
      after := StripRightIs(s[..|s| - 1]);
      after := after + [s[|s| - 1]];
    }
  }

  /** Stripping takes the blanks off both ends, all of them and nothing else. */
  lemma StripIs(s: string) returns (before: string, after: string)
    ensures s == before + Strip(s) + after && Blank(before) && Blank(after)
    ensures Strip(s) != "" ==> !IsSpace(Strip(s)[0]) && !IsSpace(Strip(s)[|Strip(s)| - 1])
  {
    before := StripLeftIs(s);
    after := StripRightIs(StripLeft(s));
  }

  /** Joining puts the separator between parts, wherever the list is divided. */
  lemma {:induction false} JoinConcat(separator: string, a: seq<string>, b: seq<string>)
    requires a != [] && b != []
    ensures Join(separator, a + b) == Join(separator, a) + separator + Join(separator, b)
    ensures |a| == 1 ==> Join(separator, a) == a[0]
  {
    var init := b[..|b| - 1];
    if init == [] {
      assert (a + b)[..|a + b| - 1] == a;
    } else {
      JoinConcat(separator, a, init);
      assert (a + b)[..|a + b| - 1] == a + init;
    }
  }
}
