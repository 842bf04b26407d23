/**
 * The two regular expressions of the value inferencer, as hand-written
 * scanners with the semantics of Python's `re` module:
 *
 *   the value pattern, five named alternatives tried in this order at each
 *   position:  dict `\{[^{}]+\}`, list `\[[^]]+\]`, float `\d*\.\d+`,
 *   int `\d+`, string `[a-zA-Z]+`;
 *
 *   the datetime pattern `(\d{4}-\d{2}-\d{2})[A-Z]+(\d{2}:\d{2}:\d{2})`.
 *
 * `re.finditer` scans left to right and resumes after each match;
 * `re.search` returns the leftmost match; `lastgroup` is the kind of the
 * alternative that matched.
 */
module Scanner {
  import opened Text
  import opened Values

  datatype Kind = DictK | ListK | FloatK | IntK | StringK

  /** A match of the value pattern: the alternative and the slice `s[start..end]`. */
  datatype Match = Match(kind: Kind, start: nat, end: nat)

  function MatchText(s: string, m: Match): string
    requires m.start <= m.end <= |s|
  {
    s[m.start..m.end]
  }

  /** End of the longest run of digits starting at `i`. */
  function DigitRunEnd(s: string, i: nat): (j: nat)
    requires i <= |s|
    ensures i <= j <= |s|
    ensures forall k :: i <= k < j ==> IsDigit(s[k])
    ensures j == |s| || !IsDigit(s[j])
    decreases |s| - i
  {
    if i < |s| && IsDigit(s[i]) then DigitRunEnd(s, i + 1) else i
  }

  /** End of the longest run of ASCII letters starting at `i`. */
  function LetterRunEnd(s: string, i: nat): (j: nat)
    requires i <= |s|
    ensures i <= j <= |s|
    ensures forall k :: i <= k < j ==> IsLetter(s[k])
    ensures j == |s| || !IsLetter(s[j])
    decreases |s| - i
  {
    if i < |s| && IsLetter(s[i]) then LetterRunEnd(s, i + 1) else i
  }

  /** End of the longest run of upper-case ASCII letters starting at `i`. */
  function UpperRunEnd(s: string, i: nat): (j: nat)
    requires i <= |s|
    ensures i <= j <= |s|
    ensures forall k :: i <= k < j ==> IsUpper(s[k])
    ensures j == |s| || !IsUpper(s[j])
    decreases |s| - i
  {
    if i < |s| && IsUpper(s[i]) then UpperRunEnd(s, i + 1) else i
  }

  /** The first brace at or after `i`, or `|s|`. */
  function NextBrace(s: string, i: nat): (j: nat)
    requires i <= |s|
    ensures i <= j <= |s|
    ensures forall k :: i <= k < j ==> s[k] != '{' && s[k] != '}'
    ensures j < |s| ==> s[j] == '{' || s[j] == '}'
    decreases |s| - i
  {
    if i < |s| && s[i] != '{' && s[i] != '}' then NextBrace(s, i + 1) else i
  }

  /** The first `]` at or after `i`, or `|s|`. */
  function NextCloseBracket(s: string, i: nat): (j: nat)
    requires i <= |s|
    ensures i <= j <= |s|
    ensures forall k :: i <= k < j ==> s[k] != ']'
    ensures j < |s| ==> s[j] == ']'
    decreases |s| - i
  {
    if i < |s| && s[i] != ']' then NextCloseBracket(s, i + 1) else i
  }

  /**
   * The value pattern anchored at `i`: the first alternative that matches
   * there. Every alternative consumes at least one character.
   */
  function MatchAt(s: string, i: nat): (r: Option<Match>)
    requires i < |s|
    ensures r.Some? ==> r.value.start == i < r.value.end <= |s|
  {
    if s[i] == '{' then
      var j := NextBrace(s, i + 1);
      if j < |s| && j > i + 1 && s[j] == '}' then Some(Match(DictK, i, j + 1)) else None
    else if s[i] == '[' then
      var j := NextCloseBracket(s, i + 1);
      if j < |s| && j > i + 1 then Some(Match(ListK, i, j + 1)) else None
    else if IsDigit(s[i]) || s[i] == '.' then
      var k := DigitRunEnd(s, i);
      if k + 1 < |s| && s[k] == '.' && IsDigit(s[k + 1]) then Some(Match(FloatK, i, DigitRunEnd(s, k + 1)))
      else if k > i then Some(Match(IntK, i, k))
      else None
    else if IsLetter(s[i]) then Some(Match(StringK, i, LetterRunEnd(s, i)))
    else None
  }

  /** `re.finditer` from position `i`. */
  function FindFrom(s: string, i: nat): (ms: seq<Match>)
    requires i <= |s|
    ensures forall k :: 0 <= k < |ms| ==> i <= ms[k].start < ms[k].end <= |s| && MatchAt(s, ms[k].start) == Some(ms[k])
    ensures forall k :: 0 <= k < |ms| - 1 ==> ms[k].end <= ms[k + 1].start
    decreases |s| - i
  {
    if i == |s| then []
    else match MatchAt(s, i)
      case Some(m) => [m] + FindFrom(s, m.end)
      case None => FindFrom(s, i + 1)
  }

  /** All non-overlapping matches of the value pattern, left to right. */
  function FindAll(s: string): (ms: seq<Match>)
    ensures forall k :: 0 <= k < |ms| ==> ms[k].start < ms[k].end <= |s|
  {
    FindFrom(s, 0)
  }

  /** `re.search` from position `i`: the leftmost position where the pattern matches. */
  function SearchFrom(s: string, i: nat): (r: Option<Match>)
    requires i <= |s|
    ensures r.Some? ==> i <= r.value.start < |s| && MatchAt(s, r.value.start) == r
    ensures r.Some? ==> forall p :: i <= p < r.value.start ==> MatchAt(s, p).None?
    ensures r.None? ==> forall p :: i <= p < |s| ==> MatchAt(s, p).None?
    decreases |s| - i
  {
    if i == |s| then None
    else if MatchAt(s, i).Some? then MatchAt(s, i)
    else SearchFrom(s, i + 1)
  }

  function Search(s: string): Option<Match>
  {
    SearchFrom(s, 0)
  }

  /** `re.search` finds exactly the first match that `re.finditer` yields. */
  lemma {:induction false} SearchIsFirstFound(s: string, i: nat)
    requires i <= |s|
    ensures SearchFrom(s, i) == if |FindFrom(s, i)| == 0 then None else Some(FindFrom(s, i)[0])
    decreases |s| - i
  {
    if i < |s| && MatchAt(s, i).None? {
      SearchIsFirstFound(s, i + 1);
    }
  }

  // ---------------------------------------------------------------------
  // The datetime pattern

  predicate DigitsAt(s: string, i: nat, n: nat)
  {
    i + n <= |s| && forall k :: i <= k < i + n ==> IsDigit(s[k])
  }

  /** `\d{4}-\d{2}-\d{2}` at `i`. */
  predicate DateAt(s: string, i: nat)
  {
    DigitsAt(s, i, 4) && i + 10 <= |s| && s[i + 4] == '-' && DigitsAt(s, i + 5, 2)
    && s[i + 7] == '-' && DigitsAt(s, i + 8, 2)
  }

  /** `\d{2}:\d{2}:\d{2}` at `i`. */
  predicate TimeAt(s: string, i: nat)
  {
    DigitsAt(s, i, 2) && i + 8 <= |s| && s[i + 2] == ':' && DigitsAt(s, i + 3, 2)
    && s[i + 5] == ':' && DigitsAt(s, i + 6, 2)
  }

  /** The end of a datetime match anchored at `i`, if there is one. */
  function DateTimeAt(s: string, i: nat): (r: Option<nat>)
    requires i <= |s|
    ensures r.Some? ==> i + 19 <= r.value <= |s|
  {
    if DateAt(s, i) then
      var u := UpperRunEnd(s, i + 10);
      if u > i + 10 && TimeAt(s, u) then Some(u + 8) else None
    else None
  }

  /** `re.search` with the datetime pattern: the leftmost match as `(start, end)`. */
  function SearchDateTimeFrom(s: string, i: nat): (r: Option<(nat, nat)>)
    requires i <= |s|
    ensures r.Some? ==> i <= r.value.0 <= |s| && DateTimeAt(s, r.value.0) == Some(r.value.1)
    ensures r.Some? ==> forall p :: i <= p < r.value.0 ==> DateTimeAt(s, p).None?
    ensures r.None? ==> forall p :: i <= p <= |s| ==> DateTimeAt(s, p).None?
    decreases |s| - i
  {
    match DateTimeAt(s, i)
    case Some(e) => Some((i, e))
    case None => if i == |s| then None else SearchDateTimeFrom(s, i + 1)
  }

  function SearchDateTime(s: string): Option<(nat, nat)>
  {
    SearchDateTimeFrom(s, 0)
  }
}
