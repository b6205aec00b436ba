/**
 * The two format validators of the HTTP layer (internal/ports/http/public/utils). Each one is a
 * regex match; the lemmas restate each pattern character by character.
 */
module Validation {
  import opened Wrappers
  import opened Regexp
  import opened Chars

  predicate IsLowerHex(c: char) {
    '0' <= c <= '9' || 'a' <= c <= 'f'
  }

  function HexClass(): seq<CharRange> {
    [CharRange('0', '9'), CharRange('a', 'f')]
  }

  /** `\d` in RE2: ASCII digits only. */
  function DigitClass(): seq<CharRange> {
    [CharRange('0', '9')]
  }

  function HexRun(n: nat): Regex {
    Repeat(Class(HexClass()), n)
  }

  /** `[0-9a-f]{8}-[0-9a-f]{4}-[0-9a-f]{4}-[0-9a-f]{4}-[0-9a-f]{12}`, anchored on both ends. */
  function UuidPattern(): Regex {
    Concat(HexRun(8), Concat(Lit('-'), Concat(HexRun(4), Concat(Lit('-'),
    Concat(HexRun(4), Concat(Lit('-'), Concat(HexRun(4), Concat(Lit('-'), HexRun(12)))))))))
  }

  /** `(0[1-9]|1[0-2])-\d{4}`, anchored on both ends. */
  function DatePattern(): Regex {
    Concat(
      Alt(Concat(Lit('0'), Class([CharRange('1', '9')])), Concat(Lit('1'), Class([CharRange('0', '2')]))),
      Concat(Lit('-'), Repeat(Class(DigitClass()), 4)))
  }

  predicate IsUuidDashPosition(i: int) {
    i == 8 || i == 13 || i == 18 || i == 23
  }

  /** 36 characters: '-' exactly at 8, 13, 18 and 23, a lower-case hex digit everywhere else. */
  predicate IsCanonicalUuid(s: string) {
    |s| == 36 &&
    forall i :: 0 <= i < |s| ==> if IsUuidDashPosition(i) then s[i] == '-' else IsLowerHex(s[i])
  }

  /** The month of an `MM-YYYY` text: the number its first two digits spell. */
  function Month(s: string): nat
    requires |s| >= 2 && IsDigit(s[0]) && IsDigit(s[1])
  {
    10 * DigitValue(s[0]) + DigitValue(s[1])
  }

  /** `MM-YYYY`: two ASCII digits forming a month 1..12, a '-', four ASCII digits (any year). */
  predicate IsMonthYear(s: string) {
    |s| == 7 && IsDigit(s[0]) && IsDigit(s[1])
    && 1 <= Month(s) <= 12
    && s[2] == '-'
    && forall k :: 3 <= k < 7 ==> IsDigit(s[k])
  }

  function UuidFormatError(uuid: string): string {
    "invalid UUID format: " + uuid
  }

  function DateFormatError(date: string): string {
    "invalid date format: " + date + ", expected format MM-YYYY"
  }

  predicate IsPieceAt(hay: string, needle: string, i: int) {
    0 <= i && i + |needle| <= |hay| && hay[i..i + |needle|] == needle
  }

  /** `needle` occurs in `hay` as a contiguous piece. */
  predicate Mentions(hay: string, needle: string) {
    exists i :: 0 <= i <= |hay| - |needle| && IsPieceAt(hay, needle, i)
  }

  /** ValidateUUID: no error exactly for the canonical lower-case 8-4-4-4-12 form. */
  function ValidateUUID(uuid: string): (r: Outcome<string>)
    ensures r.Pass? <==> IsCanonicalUuid(uuid)
    ensures r.Fail? ==> r.error == UuidFormatError(uuid)
  {
    UuidPatternMeaning(uuid);
    if MatchesWhole(UuidPattern(), uuid) then Pass else Fail(UuidFormatError(uuid))
  }

  /** ValidateDate: no error exactly for `MM-YYYY` with a month 01..12. */
  function ValidateDate(date: string): (r: Outcome<string>)
    ensures r.Pass? <==> IsMonthYear(date)
    ensures r.Fail? ==> r.error == DateFormatError(date)
  {
    DatePatternMeaning(date);
    if MatchesWhole(DatePattern(), date) then Pass else Fail(DateFormatError(date))
  }

  lemma HexClassMeaning(c: char)
    ensures InClass(c, HexClass()) <==> IsLowerHex(c)
  {
    var rs := HexClass();
    assert rs[1..] == [CharRange('a', 'f')];
    assert rs[1..][1..] == [];
    assert !InClass(c, rs[1..][1..]);
  }

  /** A one-range class `[lo-hi]`. */
  lemma RangeClassMeaning(c: char, lo: char, hi: char)
    ensures InClass(c, [CharRange(lo, hi)]) <==> lo <= c <= hi
  {
    var rs := [CharRange(lo, hi)];
    assert rs[1..] == [];
    assert !InClass(c, rs[1..]);
  }

  lemma LitSpan(c: char, s: string, i: nat, j: nat)
    ensures MatchesSpan(Lit(c), s, i, j) <==> j == i + 1 && j <= |s| && s[i] == c
  {
    RangeClassMeaning(if i < |s| then s[i] else c, c, c);
  }

  /** Every character of s[i..j] is a lower-case hex digit. */
  predicate HexAt(s: string, i: nat, j: nat)
    requires i <= j <= |s|
  {
    forall k :: i <= k < j ==> IsLowerHex(s[k])
  }

  lemma HexRunSpan(n: nat, s: string, i: nat, j: nat)
    ensures MatchesSpan(HexRun(n), s, i, j) <==> j == i + n && j <= |s| && HexAt(s, i, j)
  {
    RepeatClassSpan(HexClass(), n, s, i, j);
    forall k | 0 <= k < |s| { HexClassMeaning(s[k]); }
  }

  /** The five hex groups and four dashes, group by group. */
  predicate UuidGroups(s: string) {
    |s| == 36 && HexAt(s, 0, 8) && s[8] == '-' && HexAt(s, 9, 13) && s[13] == '-'
    && HexAt(s, 14, 18) && s[18] == '-' && HexAt(s, 19, 23) && s[23] == '-' && HexAt(s, 24, 36)
  }

  /** `[0-9a-f]{4}-` followed by `rest`, from position i. */
  lemma UuidStep(rest: Regex, s: string, i: nat)
    ensures MatchesSpan(Concat(HexRun(4), Concat(Lit('-'), rest)), s, i, |s|) <==>
      i + 5 <= |s| && HexAt(s, i, i + 4) && s[i + 4] == '-' && MatchesSpan(rest, s, i + 5, |s|)
  {
    ConcatFixedSpan(HexRun(4), Concat(Lit('-'), rest), s, i, |s|);
    ConcatFixedSpan(Lit('-'), rest, s, i + 4, |s|);
    HexRunSpan(4, s, i, i + 4);
    LitSpan('-', s, i + 4, i + 5);
  }

  function UuidFrom19(): Regex { Concat(HexRun(4), Concat(Lit('-'), HexRun(12))) }
  function UuidFrom14(): Regex { Concat(HexRun(4), Concat(Lit('-'), UuidFrom19())) }
  function UuidFrom9(): Regex { Concat(HexRun(4), Concat(Lit('-'), UuidFrom14())) }

  lemma UuidGroupsFrom19(s: string)
    ensures MatchesSpan(UuidFrom19(), s, 19, |s|) <==>
      |s| == 36 && HexAt(s, 19, 23) && s[23] == '-' && HexAt(s, 24, 36)
  {
    UuidStep(HexRun(12), s, 19);
    HexRunSpan(12, s, 24, |s|);
    // Named so that the solver treats each match as one fact instead of unfolding it.
    var whole, tail := MatchesSpan(UuidFrom19(), s, 19, |s|), MatchesSpan(HexRun(12), s, 24, |s|);
    assert whole <==> 24 <= |s| && HexAt(s, 19, 23) && s[23] == '-' && tail;
    assert tail <==> |s| == 36 && HexAt(s, 24, |s|);
  }

  lemma UuidGroupsFrom14(s: string)
    ensures MatchesSpan(UuidFrom14(), s, 14, |s|) <==>
      |s| == 36 && HexAt(s, 14, 18) && s[18] == '-' && HexAt(s, 19, 23) && s[23] == '-' && HexAt(s, 24, 36)
  {
    UuidStep(UuidFrom19(), s, 14);
    UuidGroupsFrom19(s);
    var whole, tail := MatchesSpan(UuidFrom14(), s, 14, |s|), MatchesSpan(UuidFrom19(), s, 19, |s|);
    assert whole <==> 19 <= |s| && HexAt(s, 14, 18) && s[18] == '-' && tail;
  }

  lemma UuidGroupsFrom9(s: string)
    ensures MatchesSpan(UuidFrom9(), s, 9, |s|) <==>
      |s| == 36 && HexAt(s, 9, 13) && s[13] == '-' && HexAt(s, 14, 18) && s[18] == '-'
      && HexAt(s, 19, 23) && s[23] == '-' && HexAt(s, 24, 36)
  {
    UuidStep(UuidFrom14(), s, 9);
    UuidGroupsFrom14(s);
    var whole, tail := MatchesSpan(UuidFrom9(), s, 9, |s|), MatchesSpan(UuidFrom14(), s, 14, |s|);
    assert whole <==> 14 <= |s| && HexAt(s, 9, 13) && s[13] == '-' && tail;
  }

  lemma UuidPatternGroups(s: string)
    ensures MatchesWhole(UuidPattern(), s) <==> UuidGroups(s)
  {
    var n := |s|;
    assert UuidPattern() == Concat(HexRun(8), Concat(Lit('-'), UuidFrom9()));
    ConcatFixedSpan(HexRun(8), Concat(Lit('-'), UuidFrom9()), s, 0, n);
    ConcatFixedSpan(Lit('-'), UuidFrom9(), s, 8, n);
    HexRunSpan(8, s, 0, 8);
    LitSpan('-', s, 8, 9);
    UuidGroupsFrom9(s);
    var whole, dash, tail := MatchesWhole(UuidPattern(), s), MatchesSpan(Concat(Lit('-'), UuidFrom9()), s, 8, n),
      MatchesSpan(UuidFrom9(), s, 9, n);
    assert whole <==> 8 <= n && HexAt(s, 0, 8) && dash;
    assert dash <==> 9 <= n && s[8] == '-' && tail;
  }

  lemma UuidGroupsMeaning(s: string)
    ensures UuidGroups(s) <==> IsCanonicalUuid(s)
  {
    if UuidGroups(s) {
      forall i | 0 <= i < |s|
        ensures if IsUuidDashPosition(i) then s[i] == '-' else IsLowerHex(s[i])
      {
        if i < 8 { assert HexAt(s, 0, 8); }
        else if 8 < i < 13 { assert HexAt(s, 9, 13); }
        else if 13 < i < 18 { assert HexAt(s, 14, 18); }
        else if 18 < i < 23 { assert HexAt(s, 19, 23); }
        else if 23 < i { assert HexAt(s, 24, 36); }
      }
    }
  }

  /** The UUID regex accepts exactly the canonical form. */
  lemma UuidPatternMeaning(s: string)
    ensures MatchesWhole(UuidPattern(), s) <==> IsCanonicalUuid(s)
  {
    UuidPatternGroups(s);
    UuidGroupsMeaning(s);
  }

  /** The date regex accepts exactly `MM-YYYY` with MM in 01..12. */
  lemma DatePatternMeaning(s: string)
    ensures MatchesWhole(DatePattern(), s) <==> IsMonthYear(s)
  {
    var n := |s|;
    var month0 := Concat(Lit('0'), Class([CharRange('1', '9')]));
    var month1 := Concat(Lit('1'), Class([CharRange('0', '2')]));
    var year := Repeat(Class(DigitClass()), 4);
    ConcatFixedSpan(Alt(month0, month1), Concat(Lit('-'), year), s, 0, n);
    ConcatFixedSpan(Lit('-'), year, s, 2, n);
    ConcatFixedSpan(Lit('0'), Class([CharRange('1', '9')]), s, 0, 2);
    ConcatFixedSpan(Lit('1'), Class([CharRange('0', '2')]), s, 0, 2);
    LitSpan('0', s, 0, 1);
    LitSpan('1', s, 0, 1);
    LitSpan('-', s, 2, 3);
    if 2 <= n {
      RangeClassMeaning(s[1], '1', '9');
      RangeClassMeaning(s[1], '0', '2');
    }
    RepeatClassSpan(DigitClass(), 4, s, 3, n);
    forall k | 0 <= k < |s| { RangeClassMeaning(s[k], '0', '9'); }
  }

  // What the two validators accept and reject at the edges.

  /** An upper-case hex digit anywhere makes ValidateUUID fail. */
  lemma UppercaseHexRejected(s: string, i: nat)
    requires i < |s| && 'A' <= s[i] <= 'F'
    ensures ValidateUUID(s).Fail?
  {
    assert !(if IsUuidDashPosition(i) then s[i] == '-' else IsLowerHex(s[i]));
  }

  /** A UUID wrapped in braces fails. */
  lemma BracedUuidRejected(s: string)
    ensures ValidateUUID("{" + s + "}").Fail?
  {
    var t := "{" + s + "}";
    assert t[0] == '{' && !IsLowerHex(t[0]);
  }

  /** `$` is not multi-line: a trailing newline makes both validators fail. */
  lemma TrailingNewlineRejected(s: string)
    ensures ValidateUUID(s + "\n").Fail?
    ensures ValidateDate(s + "\n").Fail?
  {
    var t := s + "\n";
    assert t[|t| - 1] == '\n';
    if |t| == 36 {
      assert !(if IsUuidDashPosition(35) then t[35] == '-' else IsLowerHex(t[35]));
    }
    if |t| == 7 {
      assert !IsDigit(t[6]);
    }
  }

  /** Month 00 is rejected whatever follows. */
  lemma MonthZeroRejected(year: string)
    ensures ValidateDate("00-" + year).Fail?
  {
    var t := "00-" + year;
    assert t[0] == '0' && t[1] == '0';
  }

  /** Months 13 to 19 are rejected whatever follows. */
  lemma MonthAboveTwelveRejected(d: char, year: string)
    requires '3' <= d <= '9'
    ensures ValidateDate(['1', d, '-'] + year).Fail?
  {
    var t := ['1', d, '-'] + year;
    assert t[0] == '1' && t[1] == d;
  }

  /** Every month 01..12 with any four ASCII digits as the year is accepted, "0000" included. */
  lemma AnyFourDigitYearAccepted(m0: char, m1: char, year: string)
    requires IsDigit(m0) && IsDigit(m1) && 1 <= Month([m0, m1]) <= 12
    requires |year| == 4 && forall k :: 0 <= k < 4 ==> IsDigit(year[k])
    ensures ValidateDate([m0, m1, '-'] + year).Pass?
  {
    var t := [m0, m1, '-'] + year;
    forall k | 3 <= k < 7 ensures IsDigit(t[k]) {
      assert t[k] == year[k - 3];
    }
  }

  lemma YearZeroAccepted()
    ensures ValidateDate("01-0000").Pass?
  {
    AnyFourDigitYearAccepted('0', '1', "0000");
    assert ['0', '1', '-'] + "0000" == "01-0000";
  }

  /** On failure, each validator's message quotes the offending input. */
  lemma ErrorsMentionInput(s: string)
    ensures ValidateUUID(s).Fail? ==> Mentions(ValidateUUID(s).error, s)
    ensures ValidateDate(s).Fail? ==> Mentions(ValidateDate(s).error, s)
  {
    var u := UuidFormatError(s);
    assert IsPieceAt(u, s, 21) by { assert u[21..21 + |s|] == s; }
    var d := DateFormatError(s);
    assert IsPieceAt(d, s, 21) by { assert d[21..21 + |s|] == s; }
  }
}
