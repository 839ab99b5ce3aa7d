/** SpanMatchKeywordUtils: colour the first case-insensitive occurrence of a keyword. */
module SpanMatch {

  /** Lower-casing of one character. Only the ASCII letters are mapped; the model keeps
      lower-casing length-preserving and per character. */
  function LowerChar(c: char): (l: char)
    ensures 'A' <= c <= 'Z' ==> l as int == c as int + 32
    ensures !('A' <= c <= 'Z') ==> l == c
  {
    if 'A' <= c <= 'Z' then (c as int + 32) as char else c
  }

  /** `String.lowercase()`. */
  function Lower(s: string): (r: string)
    ensures |r| == |s|
    ensures forall i :: 0 <= i < |s| ==> r[i] == LowerChar(s[i])
  {
    seq(|s|, i requires 0 <= i < |s| => LowerChar(s[i]))
  }

  /** Whether `pattern` occurs in `text` at index `i`. */
  predicate OccursAt(text: string, pattern: string, i: int) {
    0 <= i && i + |pattern| <= |text| && text[i..i + |pattern|] == pattern
  }

  /** `indexOf` from position `from`: the first occurrence at or after `from`, or -1. */
  function IndexOfFrom(text: string, pattern: string, from: nat): (r: int)
    requires from <= |text|
    ensures r == -1 || (from <= r && OccursAt(text, pattern, r))
    ensures r == -1 ==> forall j :: from <= j <= |text| ==> !OccursAt(text, pattern, j)
    ensures r != -1 ==> forall j :: from <= j < r ==> !OccursAt(text, pattern, j)
    decreases |text| - from
  {
    if OccursAt(text, pattern, from) then from
    else if from == |text| then -1
    else IndexOfFrom(text, pattern, from + 1)
  }

  /** `text.indexOf(pattern)`. */
  function IndexOf(text: string, pattern: string): (r: int)
    ensures r == -1 <==> forall j :: 0 <= j <= |text| ==> !OccursAt(text, pattern, j)
    ensures r != -1 ==> OccursAt(text, pattern, r) && forall j :: 0 <= j < r ==> !OccursAt(text, pattern, j)
  {
    IndexOfFrom(text, pattern, 0)
  }

  /** A `ForegroundColorSpan` over [start, end). */
  datatype Span = Span(start: int, end: int, color: int)

  /** A `SpannableString`: the characters and the spans set on them. */
  datatype Spanned = Spanned(text: string, spans: seq<Span>)

  /** Whether the keyword matches the text at `i` once both are lower-cased. */
  predicate MatchesAt(text: string, keyword: string, i: int) {
    OccursAt(Lower(text), Lower(keyword), i)
  }

  /** `highlightFirstMatchKeyword`: the characters are never changed; an empty keyword,
      one longer than the text, or one that does not occur adds no span; otherwise one
      span covers the first case-insensitive occurrence. */
  function HighlightFirstMatchKeyword(text: string, keyword: string, color: int): (r: Spanned)
    ensures r.text == text && |r.spans| <= 1
    ensures |keyword| == 0 || |keyword| > |text| ==> r.spans == []
    ensures r.spans == [] <==>
      |keyword| == 0 || |keyword| > |text| || forall j :: 0 <= j <= |text| ==> !MatchesAt(text, keyword, j)
    ensures r.spans != [] ==>
      var i := r.spans[0].start;
      r.spans[0] == Span(i, i + |keyword|, color)
      && 0 <= i && i + |keyword| <= |text|
      && MatchesAt(text, keyword, i)
      && forall j :: 0 <= j < i ==> !MatchesAt(text, keyword, j)
  {
    if |keyword| == 0 || |keyword| > |text| then Spanned(text, [])
    else
      var firstMatchStart := IndexOf(Lower(text), Lower(keyword));
      if firstMatchStart != -1 then
        assert |Lower(keyword)| == |keyword| && |Lower(text)| == |text|;
        assert MatchesAt(text, keyword, firstMatchStart);
        Spanned(text, [Span(firstMatchStart, firstMatchStart + |keyword|, color)])
      else Spanned(text, [])
  }

  /** Matching ignores case: upper-casing ASCII letters of the keyword does not move the
      span. */
  lemma CaseOfKeywordDoesNotMatter(text: string, keyword: string, other: string, color: int)
    requires |other| == |keyword|
    requires forall i :: 0 <= i < |keyword| ==> LowerChar(other[i]) == LowerChar(keyword[i])
    ensures HighlightFirstMatchKeyword(text, other, color) == HighlightFirstMatchKeyword(text, keyword, color)
  {
    assert Lower(other) == Lower(keyword);
  }

  /** An exact occurrence is found: the span starts no later than it. */
  lemma ExactOccurrenceIsFound(text: string, keyword: string, color: int, k: int)
    requires |keyword| > 0 && OccursAt(text, keyword, k)
    ensures var r := HighlightFirstMatchKeyword(text, keyword, color);
      |r.spans| == 1 && r.spans[0].start <= k
  {
    var lt, lk := Lower(text), Lower(keyword);
    assert lt[k..k + |keyword|] == lk by {
      forall i | 0 <= i < |keyword|
        ensures lt[k..k + |keyword|][i] == lk[i]
      {
        assert text[k..k + |keyword|][i] == keyword[i];
      }
    }
    assert MatchesAt(text, keyword, k);
  }
}
