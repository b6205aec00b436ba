/**
 * The fragment of Go's RE2 syntax that the validators use, with its meaning as a language:
 * bracket classes of character ranges, concatenation, alternation and exact repetition `{n}`.
 * `\d` is the ASCII class `[0-9]` (RE2 does not widen it to Unicode digits), and a literal
 * character is a one-range class.
 */
module Regexp {
  import opened Wrappers

  /** An inclusive range `lo-hi` inside a bracket expression. */
  datatype CharRange = CharRange(lo: char, hi: char)

  datatype Regex =
    | Class(ranges: seq<CharRange>)     // [lo-hi lo-hi ...]
    | Concat(first: Regex, second: Regex)
    | Alt(left: Regex, right: Regex)    // left|right
    | Repeat(body: Regex, count: nat)   // body{count}

  function Lit(c: char): Regex {
    Class([CharRange(c, c)])
  }

  predicate InClass(c: char, ranges: seq<CharRange>) {
    |ranges| > 0 && ((ranges[0].lo <= c <= ranges[0].hi) || InClass(c, ranges[1..]))
  }

  /** Every character of s[i..j] lies in the class. */
  predicate AllInClass(s: string, i: nat, j: nat, ranges: seq<CharRange>)
    requires i <= j <= |s|
  {
    forall k :: i <= k < j ==> InClass(s[k], ranges)
  }

  /** `re` matches exactly the characters s[i..j] (false when i..j is not a span of s). */
  predicate MatchesSpan(re: Regex, s: string, i: nat, j: nat)
    decreases re, 0
  {
    i <= j <= |s| &&
    match re
    case Class(rs) => j == i + 1 && InClass(s[i], rs)
    case Concat(a, b) => exists k :: i <= k <= j && MatchesSpan(a, s, i, k) && MatchesSpan(b, s, k, j)
    case Alt(a, b) => MatchesSpan(a, s, i, j) || MatchesSpan(b, s, i, j)
    case Repeat(body, n) => RepeatSpan(body, n, s, i, j)
  }

  /** `body{n}` matches exactly s[i..j]. */
  predicate RepeatSpan(body: Regex, n: nat, s: string, i: nat, j: nat)
    decreases body, n + 1
  {
    i <= j <= |s| &&
    if n == 0 then i == j
    else exists k :: i <= k <= j && MatchesSpan(body, s, i, k) && RepeatSpan(body, n - 1, s, k, j)
  }

  /**
   * Go's `MatchString` for the pattern `^re$`: `^` pins the match to the start of the text and
   * `$` (no `m` flag) to its very end, so a trailing newline is not skipped.
   */
  predicate MatchesWhole(re: Regex, s: string) {
    MatchesSpan(re, s, 0, |s|)
  }

  /** The length of every string the regex matches, when that length is fixed. */
  function Width(re: Regex): Option<nat> {
    match re
    case Class(_) => Some(1)
    case Concat(a, b) =>
      if Width(a).Some? && Width(b).Some? then Some(Width(a).value + Width(b).value) else None
    case Alt(a, b) => if Width(a).Some? && Width(a) == Width(b) then Width(a) else None
    case Repeat(body, n) => if Width(body).Some? then Some(n * Width(body).value) else None
  }

  // Unfolding helpers: the split point of a concatenation or a repetition, as a witness.

  lemma ConcatSplit(a: Regex, b: Regex, s: string, i: nat, j: nat)
    requires MatchesSpan(Concat(a, b), s, i, j)
    ensures exists k :: i <= k <= j && MatchesSpan(a, s, i, k) && MatchesSpan(b, s, k, j)
  {
  }

  lemma ConcatJoin(a: Regex, b: Regex, s: string, i: nat, k: nat, j: nat)
    requires i <= k <= j && MatchesSpan(a, s, i, k) && MatchesSpan(b, s, k, j)
    ensures MatchesSpan(Concat(a, b), s, i, j)
  {
  }

  lemma RepeatSplit(body: Regex, n: nat, s: string, i: nat, j: nat)
    requires n > 0 && RepeatSpan(body, n, s, i, j)
    ensures exists k :: i <= k <= j && MatchesSpan(body, s, i, k) && RepeatSpan(body, n - 1, s, k, j)
  {
  }

  lemma RepeatJoin(body: Regex, n: nat, s: string, i: nat, k: nat, j: nat)
    requires n > 0 && i <= k <= j && MatchesSpan(body, s, i, k) && RepeatSpan(body, n - 1, s, k, j)
    ensures RepeatSpan(body, n, s, i, j)
  {
  }

  /** A regex of fixed width only matches spans of that width. */
  lemma {:induction false} SpanWidth(re: Regex, s: string, i: nat, j: nat)
    requires Width(re).Some? && MatchesSpan(re, s, i, j)
    ensures j == i + Width(re).value
    decreases re, 0
  {
    match re
    case Class(_) =>
    case Concat(a, b) =>
      ConcatSplit(a, b, s, i, j);
      var k :| i <= k <= j && MatchesSpan(a, s, i, k) && MatchesSpan(b, s, k, j);
      SpanWidth(a, s, i, k);
      SpanWidth(b, s, k, j);
    case Alt(a, b) =>
      if MatchesSpan(a, s, i, j) { SpanWidth(a, s, i, j); } else { SpanWidth(b, s, i, j); }
    case Repeat(body, n) =>
      RepeatSpanWidth(body, n, s, i, j);
  }

  lemma {:induction false} RepeatSpanWidth(body: Regex, n: nat, s: string, i: nat, j: nat)
    requires Width(body).Some? && RepeatSpan(body, n, s, i, j)
    ensures j == i + n * Width(body).value
    decreases body, n + 1
  {
    if n > 0 {
      RepeatSplit(body, n, s, i, j);
      var k :| i <= k <= j && MatchesSpan(body, s, i, k) && RepeatSpan(body, n - 1, s, k, j);
      SpanWidth(body, s, i, k);
      RepeatSpanWidth(body, n - 1, s, k, j);
      var w := Width(body).value;
      assert n * w == w + (n - 1) * w;
    }
  }

  /** When the first part has a fixed width w, a concatenation splits exactly after w characters. */
  lemma {:induction false} ConcatFixedSpan(a: Regex, b: Regex, s: string, i: nat, j: nat)
    requires Width(a).Some?
    ensures MatchesSpan(Concat(a, b), s, i, j) <==>
      i + Width(a).value <= j && MatchesSpan(a, s, i, i + Width(a).value)
      && MatchesSpan(b, s, i + Width(a).value, j)
  {
    var m := i + Width(a).value;
    if MatchesSpan(Concat(a, b), s, i, j) {
      ConcatSplit(a, b, s, i, j);
      var k :| i <= k <= j && MatchesSpan(a, s, i, k) && MatchesSpan(b, s, k, j);
      SpanWidth(a, s, i, k);
    }
    if m <= j && MatchesSpan(a, s, i, m) && MatchesSpan(b, s, m, j) {
      ConcatJoin(a, b, s, i, m, j);
    }
  }

  /** `[class]{n}` matches s[i..j] iff the span is n long and every character is in the class. */
  lemma {:induction false} RepeatClassSpan(rs: seq<CharRange>, n: nat, s: string, i: nat, j: nat)
    ensures MatchesSpan(Repeat(Class(rs), n), s, i, j) <==>
      j == i + n && j <= |s| && AllInClass(s, i, j, rs)
    decreases n
  {
    if n > 0 {
      if RepeatSpan(Class(rs), n, s, i, j) {
        RepeatSplit(Class(rs), n, s, i, j);
        var k :| i <= k <= j && MatchesSpan(Class(rs), s, i, k) && RepeatSpan(Class(rs), n - 1, s, k, j);
        RepeatClassSpan(rs, n - 1, s, k, j);
      }
      if j == i + n && j <= |s| && AllInClass(s, i, j, rs) {
        RepeatClassSpan(rs, n - 1, s, i + 1, j);
        assert MatchesSpan(Class(rs), s, i, i + 1);
        RepeatJoin(Class(rs), n, s, i, i + 1, j);
      }
    }
  }
}
