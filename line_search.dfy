/**
 * The tutorial's line search, solved three ways: an indexed `for` loop that
 * writes its answer through `&mut usize` (`search_pattern_for`), an iterator
 * chain over the enumerated lines (`search_pattern_iter`), and `find` over
 * the lines themselves, returning an owned copy (`return_match`) or a borrow
 * (`return_match_borrow`) of the first line containing the pattern.
 */
module LineSearch {
  import opened Prelude

  /** `pattern` occurs in `line` starting at position `i`. */
  predicate OccursAt(line: string, pattern: string, i: nat) {
    i + |pattern| <= |line| && line[i..i + |pattern|] == pattern
  }

  /** `str::contains`: `pattern` occurs somewhere in `line` (the empty pattern occurs everywhere). */
  predicate Contains(line: string, pattern: string) {
    exists i | 0 <= i <= |line| - |pattern| :: OccursAt(line, pattern, i)
  }

  /** `k` is the first index whose line contains `pattern`. */
  ghost predicate FirstMatch(pattern: string, lines: seq<string>, k: int) {
    && 0 <= k < |lines|
    && Contains(lines[k], pattern)
    && forall j | 0 <= j < k :: !Contains(lines[j], pattern)
  }

  /** No line contains `pattern`. */
  ghost predicate NoMatch(pattern: string, lines: seq<string>) {
    forall j | 0 <= j < |lines| :: !Contains(lines[j], pattern)
  }

  /** `iter().enumerate().find(...)` resumed at `from`: the first matching index at or after it. */
  function FindFrom(pattern: string, lines: seq<string>, from: nat): (r: Option<nat>)
    requires from <= |lines|
    ensures r.Some? ==> from <= r.value < |lines| && Contains(lines[r.value], pattern)
    ensures r.Some? ==> forall j | from <= j < r.value :: !Contains(lines[j], pattern)
    ensures r.None? ==> forall j | from <= j < |lines| :: !Contains(lines[j], pattern)
    decreases |lines| - from
  {
    if from == |lines| then None
    else if Contains(lines[from], pattern) then Some(from)
    else FindFrom(pattern, lines, from + 1)
  }

  /**
   * `search_pattern_iter`: the index of the first matching line, or
   * `usize::MAX` when there is none. A slice is always shorter than
   * `usize::MAX`, so the two answers cannot be confused.
   */
  function SearchPatternIter(pattern: string, lines: seq<string>): (r: Usize)
    requires |lines| < UsizeMax
    ensures r < |lines| ==> FirstMatch(pattern, lines, r)
    ensures r >= |lines| <==> r == UsizeMax
    ensures r == UsizeMax <==> NoMatch(pattern, lines)
  {
    match FindFrom(pattern, lines, 0)
    case None => UsizeMax
    case Some(i) => i
  }

  /**
   * `search_pattern_for`: the loop stops at the first matching line; when
   * none matches it stores `usize::MAX`. The value behind `idx` is never read
   * before it is written, so the out-parameter is the method's result.
   */
  method SearchPatternFor(pattern: string, lines: seq<string>) returns (idx: Usize)
    requires |lines| < UsizeMax
    ensures idx < |lines| ==> FirstMatch(pattern, lines, idx)
    ensures idx >= |lines| ==> idx == UsizeMax && NoMatch(pattern, lines)
    ensures idx == SearchPatternIter(pattern, lines)
  {
    for i := 0 to |lines|
      invariant forall j | 0 <= j < i :: !Contains(lines[j], pattern)
    {
      if Contains(lines[i], pattern) {
        idx := i;
        return;
      }
    }
    idx := UsizeMax;
  }

  /** `return_match`: `iter().find(...)` over the lines, then `to_string`. */
  function ReturnMatch(pattern: string, lines: seq<string>): (r: Option<string>)
    ensures r.Some? ==> r.value in lines && Contains(r.value, pattern)
    ensures r.None? <==> NoMatch(pattern, lines)
  {
    if lines == [] then None
    else if Contains(lines[0], pattern) then Some(lines[0])
    else ReturnMatch(pattern, lines[1..])
  }

  /** Finding the line from `from` on yields the line at the index found from `from` on. */
  lemma {:induction false} ReturnMatchFrom(pattern: string, lines: seq<string>, from: nat)
    requires from <= |lines|
    ensures ReturnMatch(pattern, lines[from..])
         == match FindFrom(pattern, lines, from)
            case None => None
            case Some(i) => Some(lines[i])
    decreases |lines| - from
  {
    if from < |lines| {
      assert lines[from..][0] == lines[from];
      assert lines[from..][1..] == lines[from + 1..];
      if !Contains(lines[from], pattern) {
        ReturnMatchFrom(pattern, lines, from + 1);
      }
    }
  }

  /**
   * The element-wise and the index-wise searches agree: `return_match` gives
   * the line at the index `search_pattern_iter` reports, and `None` exactly
   * when that index is `usize::MAX`.
   */
  lemma ReturnMatchAgreesWithIndex(pattern: string, lines: seq<string>)
    requires |lines| < UsizeMax
    ensures var idx := SearchPatternIter(pattern, lines);
            ReturnMatch(pattern, lines) == if idx < |lines| then Some(lines[idx]) else None
  {
  }

  /**
   * `return_match_borrow`: the same search, returning a borrow of the line
   * itself: an element of `lines`, which itself is left untouched.
   */
  function ReturnMatchBorrow(pattern: string, lines: seq<string>): (r: Option<string>)
    ensures r == ReturnMatch(pattern, lines)
    ensures r.Some? ==> exists k | 0 <= k < |lines| :: FirstMatch(pattern, lines, k) && r.value == lines[k]
  {
    ReturnMatchFrom(pattern, lines, 0);
    assert lines[0..] == lines;
    match FindFrom(pattern, lines, 0)
    case None => None
    case Some(i) => Some(lines[i])
  }

  /** The line `functions` prints for an index: the line there, or "NOT FOUND" past the end. */
  function MatchingLine(lines: seq<string>, idx: Usize): (r: string)
    ensures idx < |lines| ==> r == lines[idx]
    ensures idx >= |lines| ==> r == "NOT FOUND"
  {
    if idx < |lines| then lines[idx] else "NOT FOUND"
  }

  /**
   * What `functions` prints for the index of `search_pattern_iter` is the line
   * `return_match` finds, or "NOT FOUND" when it finds none.
   */
  lemma MatchingLineAgreesWithReturnMatch(pattern: string, lines: seq<string>)
    requires |lines| < UsizeMax
    ensures MatchingLine(lines, SearchPatternIter(pattern, lines))
         == match ReturnMatch(pattern, lines)
            case None => "NOT FOUND"
            case Some(line) => line
  {
  }

  /** A pattern whose first character does not occur in `line` does not occur in it. */
  lemma MissingFirstChar(line: string, pattern: string)
    requires |pattern| > 0 && pattern[0] !in line
    ensures !Contains(line, pattern)
  {
  }

  /** The example lines of `functions`, `ownership` and `life_time`: "gh" first occurs in line 1. */
  lemma ExampleFirstMatch()
    ensures FirstMatch("gh", ["abcde", "defgh", "ghijk"], 1)
  {
    MissingFirstChar("abcde", "gh");
    assert OccursAt("defgh", "gh", 3);
  }

  /** `functions`: both solutions print "defgh". */
  method Functions() returns (forLine: string, iterLine: string)
    ensures forLine == "defgh" && iterLine == "defgh"
  {
    var lines := ["abcde", "defgh", "ghijk"];
    var pattern := "gh";
    ExampleFirstMatch();
    var idx := SearchPatternFor(pattern, lines);
    forLine := MatchingLine(lines, idx);
    var idx2 := SearchPatternIter(pattern, lines);
    iterLine := MatchingLine(lines, idx2);
  }

  /** `ownership`: `return_match` on the example lines gives an owned "defgh". */
  method Ownership() returns (line: Option<string>)
    ensures line == Some("defgh")
  {
    var lines := ["abcde", "defgh", "ghijk"];
    ExampleFirstMatch();
    ReturnMatchAgreesWithIndex("gh", lines);
    line := ReturnMatch("gh", lines);
  }

  /** `life_time`: the borrowed answer is "defgh", and the lines are still there to read afterwards. */
  method LifeTime() returns (line: Option<string>, line0: string)
    ensures line == Some("defgh")
    ensures line0 == "abcde"
  {
    var lines := ["abcde", "defgh", "ghijk"];
    ExampleFirstMatch();
    ReturnMatchAgreesWithIndex("gh", lines);
    line := ReturnMatchBorrow("gh", lines);
    line0 := lines[0];
  }
}
