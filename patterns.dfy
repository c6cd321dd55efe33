/**
 * The handful of regular expressions the resume code uses, each written out
 * as a scanner over the text with Python's `re` semantics (leftmost match,
 * greedy repetition with backtracking, `findall` resuming at the end of each
 * match), on ASCII text:
 *
 *  - `(\d+)\+?\s*years?` and its two longer forms ending in `\s*of\s*experience`
 *    and `\s*in` (YearsMatchEnd, FindYears, SearchYears);
 *  - `\b[A-Z][a-z]+(?:\s+[A-Z][a-z]+)*\b`, runs of capitalised words (CapRuns);
 *  - `\b(a|b|...)\b`, an alternation of vocabulary words (FindAlts);
 *  - `\b\w+\b`, word runs (WordRuns);
 *  - `\d+`, digit runs (DigitRunCount, HasDigit).
 *
 * Every one of these patterns is deterministic once written out: a shorter
 * choice for any greedy part leaves a character the next part cannot accept,
 * so backtracking never finds a different match.
 */
module Patterns {
  import opened Seqs
  import opened Text

  function DigitValue(c: char): nat
  {
    if IsDigit(c) then c as int - '0' as int else 0
  }

  /** `int(ds)` for a run of decimal digits. */
  function DecimalValue(ds: string): nat
    decreases |ds|
  {
    if ds == [] then 0 else DecimalValue(ds[..|ds| - 1]) * 10 + DigitValue(ds[|ds| - 1])
  }

  /** The number written by the digit run that starts at `p`. */
  function NumberAt(s: string, p: nat): nat
    requires p <= |s|
  {
    DecimalValue(s[p..RunEnd(s, p, IsDigit)])
  }

  /** `\b` just before a word character at `p`. */
  predicate StartsWord(s: string, p: nat)
    requires p <= |s|
  {
    p == 0 || !IsWordChar(s[p - 1])
  }

  /** `\b` just after a word character ending at `e`. */
  predicate EndsWord(s: string, e: nat)
  {
    e >= |s| || !IsWordChar(s[e])
  }

  // ---------------------------------------------------------------------
  // (\d+)\+?\s*years?  [ \s*of\s*experience | \s*in ]

  datatype YearsTail = NoTail | OfExperience | InTail

  /** Where the tail `\s*of\s*experience` or `\s*in`, if any, ends when tried at `e`. */
  function TailEnd(s: string, e: nat, tail: YearsTail): (r: Option<nat>)
    requires e <= |s|
    ensures r.Some? ==> e <= r.value <= |s|
  {
    match tail
    case NoTail => Some(e)
    case OfExperience =>
      var a := RunEnd(s, e, IsSpace);
      if At(s, a, "of") then
        var b := RunEnd(s, a + 2, IsSpace);
        if At(s, b, "experience") then Some(b + 10) else None
      else None
    case InTail =>
      var a := RunEnd(s, e, IsSpace);
      if At(s, a, "in") then Some(a + 2) else None
  }

  /** End of the match of the years pattern tried at `p`, if it matches there. */
  function YearsMatchEnd(s: string, p: nat, tail: YearsTail): (e: Option<nat>)
    ensures e.Some? ==> p < |s| && IsDigit(s[p]) && p < e.value <= |s|
  {
    if p < |s| && IsDigit(s[p]) then
      var d := RunEnd(s, p, IsDigit);
      var q := if d < |s| && s[d] == '+' then d + 1 else d;
      var y := RunEnd(s, q, IsSpace);
      if At(s, y, "year") then
        var e := if At(s, y + 4, "s") then y + 5 else y + 4;
        TailEnd(s, e, tail)
      else None
    else None
  }

  predicate YearsMatchesAt(s: string, tail: YearsTail, p: nat)
  {
    YearsMatchEnd(s, p, tail).Some?
  }

  /** `re.findall` of the years pattern from `p`: the captured numbers, in text order. */
  function FindYears(s: string, p: nat, tail: YearsTail): (r: seq<nat>)
    decreases |s| - p
  {
    if p >= |s| then []
    else match YearsMatchEnd(s, p, tail)
      case Some(e) => [NumberAt(s, p)] + FindYears(s, e, tail)
      case None => FindYears(s, p + 1, tail)
  }

  /** The years pattern as a predicate on start positions. */
  function YearsMatcher(s: string, tail: YearsTail): nat -> bool
  {
    (q: nat) => YearsMatchesAt(s, tail, q)
  }

  /** `re.search` of the years pattern: the leftmost position where it matches. */
  function SearchYears(s: string, tail: YearsTail): (r: Option<nat>)
    ensures r.Some? ==> YearsMatchesAt(s, tail, r.value)
    ensures r.None? ==> forall p: nat :: p < |s| ==> !YearsMatchesAt(s, tail, p)
  {
    var f := YearsMatcher(s, tail);
    var r := FindFirst(0, |s|, f);
    assert r.None? ==> forall p: nat :: p < |s| ==> !YearsMatchesAt(s, tail, p) by {
      if r.None? {
        forall p: nat | p < |s| ensures !YearsMatchesAt(s, tail, p) {
          assert !f(p);
        }
      }
    }
    r
  }

  /** `search` finds the leftmost match: a match with none before it is the one found. */
  lemma SearchYearsLeftmost(s: string, tail: YearsTail, p: nat)
    requires p < |s| && YearsMatchesAt(s, tail, p)
    requires forall q: nat :: q < p ==> !YearsMatchesAt(s, tail, q)
    ensures SearchYears(s, tail) == Some(p)
  {
    var f := YearsMatcher(s, tail);
    var r := FindFirst(0, |s|, f);
    assert f(p);
    assert r.Some?;
    assert f(r.value);
    assert r.value == p;
  }

  /** From `p` on, `findall` is empty iff `search` fails, and its first number is the one `search` finds. */
  lemma {:induction false} FindYearsFirstFrom(s: string, p: nat, tail: YearsTail)
    requires p <= |s|
    ensures var q := FindFirst(p, |s|, YearsMatcher(s, tail));
            && (FindYears(s, p, tail) == [] <==> q.None?)
            && (q.Some? ==> FindYears(s, p, tail)[0] == NumberAt(s, q.value))
    decreases |s| - p
  {
    var f := YearsMatcher(s, tail);
    if p < |s| {
      if YearsMatchesAt(s, tail, p) {
        assert f(p);
        assert FindFirst(p, |s|, f) == Some(p);
        assert FindYears(s, p, tail) == [NumberAt(s, p)] + FindYears(s, YearsMatchEnd(s, p, tail).value, tail);
      } else {
        assert !f(p);
        assert FindFirst(p, |s|, f) == FindFirst(p + 1, |s|, f);
        assert FindYears(s, p, tail) == FindYears(s, p + 1, tail);
        FindYearsFirstFrom(s, p + 1, tail);
      }
    }
  }

  /** `findall` is empty iff `search` fails; otherwise its first number is the one `search` finds. */
  lemma FindYearsFirst(s: string, tail: YearsTail)
    ensures FindYears(s, 0, tail) == [] <==> SearchYears(s, tail).None?
    ensures SearchYears(s, tail).Some? ==> FindYears(s, 0, tail)[0] == NumberAt(s, SearchYears(s, tail).value)
  {
    FindYearsFirstFrom(s, 0, tail);
  }

  // ---------------------------------------------------------------------
  // \b[A-Z][a-z]+(?:\s+[A-Z][a-z]+)*\b

  /** End of the capitalised word `[A-Z][a-z]+` at `p`, with the lowercase run taken whole. */
  function CapWordEnd(s: string, p: nat): (e: Option<nat>)
    ensures e.Some? ==>
              && p + 2 <= e.value <= |s| && IsUpper(s[p])
              && (forall k :: p < k < e.value ==> IsLower(s[k]))
              && (e.value == |s| || !IsLower(s[e.value]))
  {
    if p + 1 < |s| && IsUpper(s[p]) && IsLower(s[p + 1]) then Some(RunEnd(s, p + 1, IsLower)) else None
  }

  /** A run made of letters and whitespace only. */
  predicate LettersAndSpaces(s: string, i: nat, j: nat)
    requires i <= j <= |s|
  {
    forall k :: i <= k < j ==> IsAlpha(s[k]) || IsSpace(s[k])
  }

  /**
   * From the end `e` of a capitalised word, the furthest end reachable through
   * `\s+[A-Z][a-z]+` steps each followed by a word boundary.
   */
  function ChainEnd(s: string, e: nat): (r: nat)
    requires e <= |s|
    ensures e <= r <= |s|
    ensures LettersAndSpaces(s, e, r)
    ensures EndsWord(s, e) ==> EndsWord(s, r)
    decreases |s| - e
  {
    var w := RunEnd(s, e, IsSpace);
    if w > e then
      match CapWordEnd(s, w)
      case Some(e2) => if EndsWord(s, e2) then ChainEnd(s, e2) else e
      case None => e
    else e
  }

  /** End of the capitalised-run match tried at `p`, if it matches there. */
  function CapRunEnd(s: string, p: nat): (e: Option<nat>)
    requires p <= |s|
    ensures e.Some? ==>
              && p + 2 <= e.value <= |s| && IsUpper(s[p]) && LettersAndSpaces(s, p, e.value)
              && StartsWord(s, p) && EndsWord(s, e.value)
  {
    if StartsWord(s, p) then
      match CapWordEnd(s, p)
      case Some(e) => if EndsWord(s, e) then Some(ChainEnd(s, e)) else None
      case None => None
    else None
  }

  /** `re.findall` of the capitalised-run pattern from `p`. */
  function CapRuns(s: string, p: nat): (r: seq<string>)
    requires p <= |s|
    ensures forall run :: run in r ==>
              && |run| >= 2 && IsUpper(run[0]) && Contains(s, run)
              && forall i :: 0 <= i < |run| ==> IsAlpha(run[i]) || IsSpace(run[i])
    decreases |s| - p
  {
    if p == |s| then []
    else match CapRunEnd(s, p)
      case Some(e) =>
        ContainsSlice(s, p, e);
        [s[p..e]] + CapRuns(s, e)
      case None => CapRuns(s, p + 1)
  }

  /** The capitalised-run pattern as a predicate on start positions. */
  function CapRunMatcher(s: string): nat -> bool
  {
    (q: nat) => q <= |s| && CapRunEnd(s, q).Some?
  }

  /**
   * `findall` is `search` repeated: from `p`, the first run found is the
   * match at the leftmost position where the pattern matches, and the scan
   * resumes where that match ends; with no match left, there are no runs.
   */
  lemma {:induction false} CapRunsSearch(s: string, p: nat)
    requires p <= |s|
    ensures var q := FindFirst(p, |s|, CapRunMatcher(s));
            && (q.None? ==> CapRuns(s, p) == [])
            && (q.Some? ==>
                  && CapRunEnd(s, q.value).Some?
                  && CapRuns(s, p) == [s[q.value..CapRunEnd(s, q.value).value]] + CapRuns(s, CapRunEnd(s, q.value).value))
    decreases |s| - p
  {
    var f := CapRunMatcher(s);
    if p < |s| {
      if CapRunEnd(s, p).Some? {
        assert f(p);
      } else {
        assert !f(p);
        CapRunsSearch(s, p + 1);
      }
    }
  }

  /** `[run.lower() for run in runs if len(run) > 2]` for runs taken from `text`. */
  function LowerLongRuns(runs: seq<string>, text: string): (r: seq<string>)
    requires forall run :: run in runs ==> Contains(text, run)
    ensures |r| <= |runs|
    ensures forall k :: k in r ==> |k| > 2 && Contains(Lower(text), k)
    ensures forall k :: k in r <==> exists run :: run in runs && |run| > 2 && k == Lower(run)
  {
    if runs == [] then []
    else
      var rest := LowerLongRuns(runs[1..], text);
      assert forall run :: run in runs <==> run == runs[0] || run in runs[1..];
      if |runs[0]| > 2 then
        ContainsLower(text, runs[0]);
        [Lower(runs[0])] + rest
      else rest
  }

  /** The capitalised-word runs of the text longer than two characters, lower-cased. */
  function CapKeywords(text: string): (r: seq<string>)
    ensures forall k :: k in r ==> |k| > 2 && Contains(Lower(text), k)
    ensures forall k :: k in r <==> exists run :: run in CapRuns(text, 0) && |run| > 2 && k == Lower(run)
  {
    LowerLongRuns(CapRuns(text, 0), text)
  }

  // ---------------------------------------------------------------------
  // \b(a|b|...)\b

  /** Every alternative begins and ends with a word character, as the vocabularies do. */
  predicate WordBounded(alts: seq<string>)
  {
    forall a :: a in alts ==> |a| > 0 && IsWordChar(a[0]) && IsWordChar(a[|a| - 1])
  }

  /** The alternative `a` matches at `p` and is followed by `\b`. */
  predicate Fits(s: string, p: nat, a: string)
  {
    At(s, p, a) && EndsWord(s, p + |a|)
  }

  /** The first alternative, in pattern order, that matches at `p` and is followed by `\b`. */
  function AltAt(s: string, p: nat, alts: seq<string>): (r: Option<string>)
    ensures r.Some? ==> r.value in alts && Fits(s, p, r.value)
  {
    if alts == [] then None
    else if Fits(s, p, alts[0]) then Some(alts[0])
    else AltAt(s, p, alts[1..])
  }

  /**
   * The alternative found is the first one in pattern order that fits at `p`;
   * none is found only when no alternative fits.
   */
  lemma {:induction false} AltAtFirst(s: string, p: nat, alts: seq<string>)
    ensures AltAt(s, p, alts).Some? ==>
              exists i :: 0 <= i < |alts| && alts[i] == AltAt(s, p, alts).value &&
                forall j :: 0 <= j < i ==> !Fits(s, p, alts[j])
    ensures AltAt(s, p, alts).None? ==> forall a :: a in alts ==> !Fits(s, p, a)
    decreases |alts|
  {
    if alts != [] && !Fits(s, p, alts[0]) {
      var rest := alts[1..];
      AltAtFirst(s, p, rest);
      assert AltAt(s, p, alts) == AltAt(s, p, rest);
      if AltAt(s, p, rest).Some? {
        var i :| 0 <= i < |rest| && rest[i] == AltAt(s, p, rest).value &&
          forall j :: 0 <= j < i ==> !Fits(s, p, rest[j]);
        assert alts[i + 1] == rest[i];
        assert forall j :: 0 <= j < i + 1 ==> !Fits(s, p, alts[j]) by {
          forall j | 0 <= j < i + 1
            ensures !Fits(s, p, alts[j])
          {
            if j > 0 {
              assert alts[j] == rest[j - 1];
            }
          }
        }
      } else {
        assert forall a :: a in alts ==> a == alts[0] || a in rest;
      }
    }
  }

  /** `re.findall(r'\b(a|b|...)\b', s)` from `p`. */
  function FindAlts(s: string, p: nat, alts: seq<string>): (r: seq<string>)
    requires p <= |s|
    requires WordBounded(alts)
    ensures forall k :: k in r ==> k in alts && Contains(s, k)
    decreases |s| - p
  {
    if p == |s| then []
    else if StartsWord(s, p) && AltAt(s, p, alts).Some? then
      var a := AltAt(s, p, alts).value;
      ContainsSlice(s, p, p + |a|);
      [a] + FindAlts(s, p + |a|, alts)
    else FindAlts(s, p + 1, alts)
  }

  /** The alternation pattern matches at `q`. */
  predicate AltMatchesAt(s: string, alts: seq<string>, q: nat)
  {
    q <= |s| && StartsWord(s, q) && AltAt(s, q, alts).Some?
  }

  /** The alternation pattern as a predicate on start positions. */
  function AltMatcher(s: string, alts: seq<string>): nat -> bool
  {
    (q: nat) => AltMatchesAt(s, alts, q)
  }

  /**
   * `findall` is `search` repeated: from `p`, the first word found is the
   * alternative matched at the leftmost position where the pattern matches,
   * and the scan resumes just after it.
   */
  lemma FindAltsSearch(s: string, p: nat, alts: seq<string>)
    requires p <= |s|
    requires WordBounded(alts)
    ensures var q := FindFirst(p, |s|, AltMatcher(s, alts));
            && (q.None? ==> FindAlts(s, p, alts) == [])
            && (q.Some? ==>
                  && AltAt(s, q.value, alts).Some?
                  && q.value + |AltAt(s, q.value, alts).value| <= |s|
                  && FindAlts(s, p, alts) == [AltAt(s, q.value, alts).value] +
                       FindAlts(s, q.value + |AltAt(s, q.value, alts).value|, alts))
  {
    var q := FindFirst(p, |s|, AltMatcher(s, alts));
    FindAltsSkipTo(s, p, alts);
    if q.Some? {
      FindAltsAt(s, q.value, alts);
    }
  }

  /** From `p`, `findall` passes over every position before the leftmost match. */
  lemma {:induction false} FindAltsSkipTo(s: string, p: nat, alts: seq<string>)
    requires p <= |s|
    requires WordBounded(alts)
    ensures var q := FindFirst(p, |s|, AltMatcher(s, alts));
            && (q.None? ==> FindAlts(s, p, alts) == [])
            && (q.Some? ==> FindAlts(s, p, alts) == FindAlts(s, q.value, alts))
    decreases |s| - p
  {
    var f := AltMatcher(s, alts);
    if p < |s| && !AltMatchesAt(s, alts, p) {
      assert FindFirst(p, |s|, f) == FindFirst(p + 1, |s|, f);
      FindAltsSkip(s, p, alts);
      FindAltsSkipTo(s, p + 1, alts);
    }
  }

  lemma FindAltsSkip(s: string, p: nat, alts: seq<string>)
    requires p < |s| && !AltMatchesAt(s, alts, p)
    requires WordBounded(alts)
    ensures FindAlts(s, p, alts) == FindAlts(s, p + 1, alts)
  {
  }

  lemma FindAltsAt(s: string, p: nat, alts: seq<string>)
    requires p < |s| && StartsWord(s, p) && AltAt(s, p, alts).Some?
    requires WordBounded(alts)
    ensures p + |AltAt(s, p, alts).value| <= |s|
    ensures FindAlts(s, p, alts) == [AltAt(s, p, alts).value] + FindAlts(s, p + |AltAt(s, p, alts).value|, alts)
  {
    var a := AltAt(s, p, alts).value;
    assert At(s, p, a);
  }

  // ---------------------------------------------------------------------
  // \b\w+\b

  /** `re.findall(r'\b\w+\b', s)` from `p`: the maximal runs of word characters. */
  function WordRuns(s: string, p: nat): (r: seq<string>)
    requires p <= |s|
    ensures forall w :: w in r ==> |w| > 0 && (forall i :: 0 <= i < |w| ==> IsWordChar(w[i])) && Contains(s, w)
    decreases |s| - p
  {
    if p == |s| then []
    else if IsWordChar(s[p]) && StartsWord(s, p) then
      var e := RunEnd(s, p, IsWordChar);
      ContainsSlice(s, p, e);
      [s[p..e]] + WordRuns(s, e)
    else WordRuns(s, p + 1)
  }

  /** The word-run pattern as a predicate on start positions. */
  function WordMatcher(s: string): nat -> bool
  {
    (q: nat) => q < |s| && IsWordChar(s[q]) && StartsWord(s, q)
  }

  /**
   * `findall` is `search` repeated: from `p`, the first run found is the
   * whole run of word characters at the leftmost word start, and the scan
   * resumes where that run ends.
   */
  lemma {:induction false} WordRunsSearch(s: string, p: nat)
    requires p <= |s|
    ensures var q := FindFirst(p, |s|, WordMatcher(s));
            && (q.None? ==> WordRuns(s, p) == [])
            && (q.Some? ==>
                  WordRuns(s, p) == [s[q.value..RunEnd(s, q.value, IsWordChar)]] + WordRuns(s, RunEnd(s, q.value, IsWordChar)))
    decreases |s| - p
  {
    var f := WordMatcher(s);
    if p < |s| {
      if IsWordChar(s[p]) && StartsWord(s, p) {
        assert f(p);
      } else {
        assert !f(p);
        WordRunsSearch(s, p + 1);
      }
    }
  }

  /** Every whole word of `s` from `p` on is found: no word run is skipped. */
  lemma {:induction false} WordRunsComplete(s: string, p: nat, q: nat)
    requires p <= q < |s| && IsWordChar(s[q]) && StartsWord(s, q)
    ensures s[q..RunEnd(s, q, IsWordChar)] in WordRuns(s, p)
    decreases |s| - p
  {
    if p < q {
      if IsWordChar(s[p]) && StartsWord(s, p) {
        WordRunsComplete(s, RunEnd(s, p, IsWordChar), q);
      } else {
        WordRunsComplete(s, p + 1, q);
      }
    }
  }

  // ---------------------------------------------------------------------
  // \d+

  /** `re.search(r'\d+', s)` succeeds. */
  predicate HasDigit(s: string)
  {
    exists i :: 0 <= i < |s| && IsDigit(s[i])
  }

  /** `len(re.findall(r'\d+', s[p:]))`: the number of maximal digit runs. */
  function DigitRunCount(s: string, p: nat): nat
    requires p <= |s|
    decreases |s| - p
  {
    if p == |s| then 0
    else if IsDigit(s[p]) then 1 + DigitRunCount(s, RunEnd(s, p, IsDigit))
    else DigitRunCount(s, p + 1)
  }

  /** There is no digit run exactly when there is no digit. */
  lemma {:induction false} DigitRunsIffDigit(s: string, p: nat)
    requires p <= |s|
    ensures DigitRunCount(s, p) == 0 <==> forall i :: p <= i < |s| ==> !IsDigit(s[i])
    decreases |s| - p
  {
    if p < |s| && !IsDigit(s[p]) {
      DigitRunsIffDigit(s, p + 1);
    }
  }
}
