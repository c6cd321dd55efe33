/**
 * The route-level ATS scorer (`routes/ats_score.py`): a simpler copy of the
 * scorer with its own vocabularies. Job keywords are the vocabulary terms
 * found by substring test plus the lower-cased capitalised runs; resume (CV)
 * keywords come from three word-bounded alternation patterns and from the
 * words of a "skills" section; the score is `min(100, int(pct))`; only the
 * first ten missing keywords are returned; and the suggestion checks run
 * over the space-joined CV keyword list rather than over the CV text.
 */
module AtsRoute {
  import opened Seqs
  import opened Text
  import opened Patterns
  import AtsMatcher

  /** The fixed word lists the route functions declare locally. */
  datatype Vocabulary = Vocabulary(jobTerms: seq<string>, cvPatterns: seq<seq<string>>, commonWords: set<string>)

  /** The route's own lists: job terms, the three CV patterns' alternatives, and the stop words. */
  const Route: Vocabulary := Vocabulary(JobTerms, [LanguagePattern, WebPattern, PracticePattern], CommonWords)

  /** The job terms `extract_job_keywords` looks for. */
  const JobTerms: seq<string> :=
    [
      // technical skills
      "javascript", "python", "java", "react", "node.js", "sql", "aws", "docker",
      "kubernetes", "git", "agile", "scrum", "machine learning", "data analysis",
      "html", "css", "typescript", "angular", "vue", "mongodb", "postgresql",
      "redis", "elasticsearch", "kafka", "microservices", "api", "rest", "graphql",
      // soft skills
      "leadership", "communication", "teamwork", "problem solving", "project management",
      "collaboration", "time management", "adaptability", "creativity", "analytical",
      "critical thinking", "attention to detail", "multitasking", "mentoring",
      // experience level
      "senior", "junior", "mid-level", "entry-level", "lead", "principal", "architect",
      "manager", "director", "years experience", "experience with",
      // education
      "bachelor", "master", "phd", "degree", "university", "college", "certification",
      "certified", "diploma", "coursework",
      // industry
      "fintech", "healthcare", "e-commerce", "saas", "startup", "enterprise",
      "cloud", "devops", "frontend", "backend", "full-stack", "mobile"
    ]

  /** The stop words `extract_cv_keywords` drops. */
  const CommonWords: set<string> := {"the", "and", "or", "but", "in", "on", "at", "to", "for", "of", "with", "by"}

  /** The alternatives of the three CV skill patterns. */
  const LanguagePattern: seq<string> :=
    ["javascript", "python", "java", "react", "node.js", "sql", "aws", "docker", "kubernetes", "git"]
  const WebPattern: seq<string> := ["html", "css", "typescript", "angular", "vue", "mongodb", "postgresql", "redis"]
  const PracticePattern: seq<string> := ["agile", "scrum", "machine learning", "data analysis", "api", "rest", "graphql"]

  /** Every CV pattern is an alternation `\b(a|b|...)\b` of words that start and end with a word character. */
  predicate WellFormed(v: Vocabulary)
  {
    forall pattern :: pattern in v.cvPatterns ==> WordBounded(pattern)
  }

  /** The route's own CV patterns are word-bounded, so the scorer can be called with its own lists. */
  lemma RouteWellFormed()
    ensures WellFormed(Route)
  {
    LanguagePatternBounded();
    WebPatternBounded();
    PracticePatternBounded();
    WellFormedOf(JobTerms, LanguagePattern, WebPattern, PracticePattern, CommonWords);
  }

  lemma WellFormedOf(jobTerms: seq<string>, a: seq<string>, b: seq<string>, c: seq<string>, common: set<string>)
    requires WordBounded(a) && WordBounded(b) && WordBounded(c)
    ensures WellFormed(Vocabulary(jobTerms, [a, b, c], common))
  {
  }

  /** An alternative starts and ends with a word character. */
  predicate Bounded(a: string)
  {
    |a| > 0 && IsWordChar(a[0]) && IsWordChar(a[|a| - 1])
  }

  lemma LanguagePatternBounded()
    ensures WordBounded(LanguagePattern)
  {
    var p := LanguagePattern;
    assert Bounded(p[0]) && Bounded(p[1]) && Bounded(p[2]) && Bounded(p[3]) && Bounded(p[4]);
    assert Bounded(p[5]) && Bounded(p[6]) && Bounded(p[7]) && Bounded(p[8]) && Bounded(p[9]);
    assert forall i :: 0 <= i < |p| ==> Bounded(p[i]);
  }

  lemma WebPatternBounded()
    ensures WordBounded(WebPattern)
  {
    var p := WebPattern;
    assert Bounded(p[0]) && Bounded(p[1]) && Bounded(p[2]) && Bounded(p[3]);
    assert Bounded(p[4]) && Bounded(p[5]) && Bounded(p[6]) && Bounded(p[7]);
    assert forall i :: 0 <= i < |p| ==> Bounded(p[i]);
  }

  lemma PracticePatternBounded()
    ensures WordBounded(PracticePattern)
  {
    var p := PracticePattern;
    assert Bounded(p[0]) && Bounded(p[1]) && Bounded(p[2]) && Bounded(p[3]);
    assert Bounded(p[4]) && Bounded(p[5]) && Bounded(p[6]);
    assert forall i :: 0 <= i < |p| ==> Bounded(p[i]);
  }

  // ---------------------------------------------------------------------
  // extract_job_keywords

  /** The elements of `extract_job_keywords`'s result. */
  function JobKeywordSet(v: Vocabulary, job: string): (r: set<string>)
    ensures forall t :: t in v.jobTerms ==> (t in r <==> Contains(Lower(job), t))
    ensures forall run :: run in CapRuns(job, 0) && |run| > 2 ==> Lower(run) in r
    ensures forall k :: k in r ==> Contains(Lower(job), k)
    ensures forall k :: k in r && k !in v.jobTerms ==> exists run :: run in CapRuns(job, 0) && |run| > 2 && k == Lower(run)
  {
    set k | k in Occurring(v.jobTerms, Lower(job)) + CapKeywords(job)
  }

  /**
   * `extract_job_keywords`: the vocabulary terms found, then each new
   * lower-cased capitalised run, listed without duplicates in an order the
   * source leaves open.
   */
  method ExtractJobKeywords(v: Vocabulary, job: string) returns (r: seq<string>)
    ensures Enumerates(r, JobKeywordSet(v, job))
  {
    var jobLower := Lower(job);
    var found: seq<string> := [];
    for i := 0 to |v.jobTerms|
      invariant found == Occurring(v.jobTerms[..i], jobLower)
    {
      var keyword := v.jobTerms[i];
      assert v.jobTerms[..i + 1] == v.jobTerms[..i] + [keyword];
      OccurringAppend(v.jobTerms[..i], keyword, jobLower);
      if Contains(jobLower, keyword) {
        found := found + [keyword];
      }
    }
    assert v.jobTerms[..|v.jobTerms|] == v.jobTerms;
    ghost var vocabularyHits := found;
    var capitalizedWords := CapRuns(job, 0);
    for i := 0 to |capitalizedWords|
      invariant forall k :: k in found <==>
        k in vocabularyHits || exists run :: run in capitalizedWords[..i] && |run| > 2 && k == Lower(run)
    {
      var word := capitalizedWords[i];
      assert forall run :: run in capitalizedWords[..i + 1] <==> run in capitalizedWords[..i] || run == word;
      if |word| > 2 && Lower(word) !in found {
        found := found + [Lower(word)];
      }
    }
    assert capitalizedWords[..|capitalizedWords|] == capitalizedWords;
    r := ListSet(set k | k in found);
  }

  // ---------------------------------------------------------------------
  // extract_skills_section

  const SkillsHeaders: seq<string> := ["skills", "technical skills", "competencies", "abilities"]
  const SectionEnders: seq<string> := ["experience", "education", "work", "employment"]

  /** The state of the skills-section loop: the lines kept so far, the `in_skills` flag, and whether it broke out. */
  datatype SkillsScan = SkillsScan(kept: seq<string>, inSkills: bool, stopped: bool)

  /**
   * One line of the loop: a header line turns `in_skills` on; after a header,
   * a non-blank line either ends the loop (when it names another section) or
   * is kept; any other line is skipped.
   */
  function ScanLine(st: SkillsScan, line: string): SkillsScan
  {
    if st.stopped then st
    else if ContainsAny(Lower(line), SkillsHeaders) then st.(inSkills := true)
    else if st.inSkills && Strip(line) != [] then
      if ContainsAny(Lower(line), SectionEnders) then st.(stopped := true)
      else st.(kept := st.kept + [line])
    else st
  }

  /** The loop's state after the given lines. */
  function ScanLines(lines: seq<string>): SkillsScan
  {
    if lines == [] then SkillsScan([], false, false)
    else ScanLine(ScanLines(lines[..|lines| - 1]), lines[|lines| - 1])
  }

  /** One more line is one more step of the loop. */
  lemma ScanLinesStep(lines: seq<string>, i: nat)
    requires i < |lines|
    ensures ScanLines(lines[..i + 1]) == ScanLine(ScanLines(lines[..i]), lines[i])
  {
    assert lines[..i + 1][..i] == lines[..i];
  }

  /**
   * The kept lines are some of the lines, in order, each non-blank and naming
   * neither a skills header nor another section; nothing is kept before a header.
   */
  lemma {:induction false} ScanLinesKept(lines: seq<string>)
    ensures var st := ScanLines(lines);
            && IsSubseq(st.kept, lines)
            && (forall line :: line in st.kept ==>
                  && Strip(line) != []
                  && !ContainsAny(Lower(line), SkillsHeaders)
                  && !ContainsAny(Lower(line), SectionEnders))
            && (!st.inSkills ==> st.kept == [])
  {
    if lines != [] {
      var init := lines[..|lines| - 1];
      var last := lines[|lines| - 1];
      ScanLinesKept(init);
      var st := ScanLines(init);
      SubseqAppend(st.kept, init, last);
      InitLast(lines);
      assert ScanLines(lines) == ScanLine(st, last);
      if !st.stopped && !ContainsAny(Lower(last), SkillsHeaders) && st.inSkills && Strip(last) != []
         && !ContainsAny(Lower(last), SectionEnders) {
        assert ScanLines(lines).kept == st.kept + [last];
        assert forall line :: line in st.kept + [last] ==> line in st.kept || line == last;
      } else {
        assert ScanLines(lines).kept == st.kept;
      }
    }
  }

  /** Once the loop has broken out, later lines change nothing. */
  lemma {:induction false} ScanStopped(lines: seq<string>, n: nat)
    requires n <= |lines| && ScanLines(lines[..n]).stopped
    ensures ScanLines(lines) == ScanLines(lines[..n])
    decreases |lines| - n
  {
    if n < |lines| {
      assert lines[..n + 1][..n] == lines[..n];
      ScanStopped(lines, n + 1);
    } else {
      assert lines[..n] == lines;
    }
  }

  /** Lines that come before any header contribute nothing. */
  lemma {:induction false} NoHeaderNoSkillLines(lines: seq<string>)
    requires forall i :: 0 <= i < |lines| ==> !ContainsAny(Lower(lines[i]), SkillsHeaders)
    ensures ScanLines(lines) == SkillsScan([], false, false)
  {
    if lines != [] {
      NoHeaderNoSkillLines(lines[..|lines| - 1]);
    }
  }

  /** `line + " "` for each line, concatenated. */
  function Spaced(lines: seq<string>): string
  {
    if lines == [] then "" else Spaced(lines[..|lines| - 1]) + lines[|lines| - 1] + " "
  }

  /** What `extract_skills_section` returns for a CV text. */
  function SkillsSection(cv: string): string
  {
    Strip(Spaced(ScanLines(Lines(cv)).kept))
  }

  /** With no skills header anywhere, there is no skills section. */
  lemma NoHeaderNoSection(cv: string)
    requires forall line :: line in Lines(cv) ==> !ContainsAny(Lower(line), SkillsHeaders)
    ensures SkillsSection(cv) == ""
  {
    NoHeaderNoSkillLines(Lines(cv));
  }

  /** `extract_skills_section`: a line loop with an `in_skills` flag, a growing string and a `break`. */
  method ExtractSkillsSection(cv: string) returns (section: string)
    ensures section == SkillsSection(cv)
  {
    var lines := Lines(cv);
    var skills := "";
    var inSkills := false;
    ghost var kept: seq<string> := [];
    var i := 0;
    assert lines[..0] == [];
    while i < |lines|
      invariant 0 <= i <= |lines|
      invariant ScanLines(lines[..i]) == SkillsScan(kept, inSkills, false)
      invariant skills == Spaced(kept)
    {
      var line := lines[i];
      ScanLinesStep(lines, i);
      var lineLower := Lower(line);
      if ContainsAny(lineLower, SkillsHeaders) {
        inSkills := true;
      } else if inSkills && Strip(line) != [] {
        if ContainsAny(lineLower, SectionEnders) {
          ScanStopped(lines, i + 1);
          break;
        }
        skills := skills + line + " ";
        assert (kept + [line])[..|kept|] == kept;
        kept := kept + [line];
      }
      i := i + 1;
    }
    assert i == |lines| ==> lines[..i] == lines;
    section := Strip(skills);
  }

  // ---------------------------------------------------------------------
  // extract_cv_keywords

  /** The captured words of each pattern in turn, as the pattern loop extends the list. */
  function PatternHits(cvLower: string, patterns: seq<seq<string>>): (r: seq<string>)
    requires forall pattern :: pattern in patterns ==> WordBounded(pattern)
    ensures forall k :: k in r ==> Contains(cvLower, k) && exists pattern :: pattern in patterns && k in pattern
  {
    if patterns == [] then []
    else
      var init := patterns[..|patterns| - 1];
      assert forall pattern :: pattern in init ==> pattern in patterns;
      PatternHits(cvLower, init) + FindAlts(cvLower, 0, patterns[|patterns| - 1])
  }

  /** The words found before the stop-word and length filter. */
  function CvCandidates(v: Vocabulary, cv: string): seq<string>
    requires WellFormed(v)
  {
    var section := SkillsSection(cv);
    PatternHits(Lower(cv), v.cvPatterns) + (if section != "" then WordRuns(Lower(section), 0) else [])
  }

  /** The elements of `extract_cv_keywords`'s result. */
  function CvKeywordSet(v: Vocabulary, cv: string): (r: set<string>)
    requires WellFormed(v)
    ensures forall k :: k in r ==> |k| > 2 && k !in v.commonWords
    ensures forall k :: k in r <==> k in CvCandidates(v, cv) && k !in v.commonWords && |k| > 2
  {
    set k | k in CvCandidates(v, cv) && k !in v.commonWords && |k| > 2
  }

  /** `extract_cv_keywords`: pattern hits, then the skills-section words, filtered, listed without duplicates. */
  method ExtractCvKeywords(v: Vocabulary, cv: string) returns (r: seq<string>)
    requires WellFormed(v)
    ensures forall k :: k in r ==> |k| > 2 && k !in v.commonWords
    ensures Enumerates(r, CvKeywordSet(v, cv))
  {
    var cvLower := Lower(cv);
    var found: seq<string> := [];
    for i := 0 to |v.cvPatterns|
      invariant found == PatternHits(cvLower, v.cvPatterns[..i])
    {
      assert v.cvPatterns[..i + 1][..i] == v.cvPatterns[..i];
      found := found + FindAlts(cvLower, 0, v.cvPatterns[i]);
    }
    assert v.cvPatterns[..|v.cvPatterns|] == v.cvPatterns;
    var skillsSection := ExtractSkillsSection(cv);
    if skillsSection != "" {
      found := found + WordRuns(Lower(skillsSection), 0);
    }
    assert found == CvCandidates(v, cv);
    var kept := Filter(found, (kw: string) => kw !in v.commonWords && |kw| > 2);
    assert forall k :: k in kept <==> k in CvKeywordSet(v, cv);
    r := ListSet(set k | k in kept);
  }

  // ---------------------------------------------------------------------
  // calculate_compatibility_score and get_score_category

  /** `get_score_category`: the 80/60/40 step function. */
  function ScoreCategory(score: int): (category: string)
    ensures category == AtsMatcher.OverallLabels[AtsMatcher.OverallBand(score)]
  {
    if score >= 80 then "Excellent ATS compatibility"
    else if score >= 60 then "Good compatibility, minor improvements needed"
    else if score >= 40 then "Fair compatibility, significant improvements needed"
    else "Poor compatibility, major optimization required"
  }

  /** The `analysis` dict: an error entry, or the counts, the unrounded percentage and the category. */
  datatype RouteAnalysis =
    | NoKeywords
    | Breakdown(totalJobKeywords: nat, matchedCount: nat, missingCount: nat, matchPercentage: real, scoreCategory: string)

  datatype Compatibility = Compatibility(score: nat, missing: seq<string>, matched: seq<string>, analysis: RouteAnalysis)

  /** `calculate_compatibility_score` */
  function CompatibilityScore(job: seq<string>, cv: seq<string>): (r: Compatibility)
    ensures job == [] ==> r == Compatibility(0, [], [], NoKeywords)
    ensures r.score <= 100
    ensures IsSubseq(r.matched, job)
    ensures forall k :: k in r.matched <==> k in job && k in cv
    ensures |r.missing| <= 10
    ensures r.missing == Prefix(AtsMatcher.FindMissing(job, cv), 10)
    ensures job != [] ==>
              && r.analysis.Breakdown?
              && r.analysis.totalJobKeywords == |job|
              && r.analysis.matchedCount == |r.matched|
              && r.analysis.matchedCount + r.analysis.missingCount == |job|
              && r.analysis.scoreCategory == ScoreCategory(r.score)
              && r.score == WholePercent(|r.matched|, |job|)
              && r.analysis.matchPercentage == AtsMatcher.Percentage(|r.matched|, |job|)
  {
    if job == [] then Compatibility(0, [], [], NoKeywords)
    else
      var matched := AtsMatcher.FindMatched(job, cv);
      var percentage := AtsMatcher.Percentage(|matched|, |job|);
      var score := WholePercent(|matched|, |job|);
      var missing := AtsMatcher.FindMissing(job, cv);
      AtsMatcher.MatchedMissingPartition(job, cv);
      Compatibility(score, Prefix(missing, 10), matched,
                    Breakdown(|job|, |matched|, |missing|, percentage, ScoreCategory(score)))
  }

  /** Cancelling a positive factor keeps `<=`. */
  lemma MulCancel(a: int, b: int, c: int)
    requires c > 0 && a * c <= b * c
    ensures a <= b
  {
    assert (a - b) * c == a * c - b * c;
  }

  /** `min(100, int(pct))` for `matched` keywords out of `total`, in whole numbers. */
  function WholePercent(matched: nat, total: nat): (score: nat)
    requires matched <= total && total > 0
    ensures score <= 100
  {
    var whole := 100 * matched / total;
    if whole < 100 then whole else 100
  }

  /**
   * The score is the whole part of the percentage: `score` hundredths of the
   * total are at most the matched count, one more hundredth exceeds it, and
   * the score is 100 exactly when everything matched (so the `min` never bites).
   */
  lemma WholePercentFloor(matched: nat, total: nat)
    requires matched <= total && total > 0
    ensures var score := WholePercent(matched, total);
            && score * total <= 100 * matched < (score + 1) * total
            && (score == 100 <==> matched == total)
  {
    var q := 100 * matched / total;
    assert q * total <= 100 * matched < q * total + total;
    MulCancel(q, 100, total);
    if matched == total {
      MulCancel(100, q + 1, total);
    }
  }

  lemma LeQuotient(x: real, y: real, c: real)
    requires c > 0.0 && x * c <= y
    ensures x <= y / c
  {
  }

  lemma QuotientLt(x: real, y: real, c: real)
    requires c > 0.0 && y < x * c
    ensures y / c < x
  {
  }

  /** The score is `int(pct)` of the exact percentage: it lies between the score and the score plus one. */
  lemma WholePercentOfPercentage(matched: nat, total: nat)
    requires matched <= total && total > 0
    ensures var score := WholePercent(matched, total);
            (score as real) <= AtsMatcher.Percentage(matched, total) < (score + 1) as real
  {
    var q := WholePercent(matched, total);
    WholePercentFloor(matched, total);
    var p := AtsMatcher.Percentage(matched, total);
    assert p == (100 * matched) as real / (total as real);
    assert (q as real) * (total as real) <= (100 * matched) as real;
    LeQuotient(q as real, (100 * matched) as real, total as real);
    assert (100 * matched) as real < ((q + 1) as real) * (total as real);
    QuotientLt((q + 1) as real, (100 * matched) as real, total as real);
  }

  // ---------------------------------------------------------------------
  // generate_improvement_suggestions

  const RouteVerbs: seq<string> := ["led", "developed", "implemented", "increased", "improved", "managed", "created"]
  const SummaryWords: seq<string> := ["summary", "objective", "profile"]
  const SkillsWords: seq<string> := ["skills", "technical", "competencies"]

  const KeywordsAdvice := "Add more relevant keywords from the job description to your resume"
  const NumbersAdvice := "Add quantified achievements with specific numbers and metrics"
  const VerbsAdvice := "Use more strong action verbs to describe your achievements"
  const SummaryAdvice := "Add a compelling professional summary section"
  const SkillsAdvice := "Create a dedicated skills section highlighting relevant abilities"

  /** The message naming the first five missing keywords. */
  function MissingAdvice(missing: seq<string>): string
  {
    "Consider adding these keywords: " + Join(Prefix(missing, 5), ", ")
  }

  /** The six rules in order; the last four look at the CV keywords joined by spaces, not at the CV. */
  function Improvements(score: int, missing: seq<string>, cvKeywords: seq<string>): (r: seq<string>)
    ensures |r| <= 6
    ensures score < 60 ==> KeywordsAdvice in r
    ensures missing != [] ==> MissingAdvice(missing) in r
    ensures !HasDigit(Join(cvKeywords, " ")) ==> NumbersAdvice in r
    ensures CountContained(RouteVerbs, Lower(Join(cvKeywords, " "))) < 3 ==> VerbsAdvice in r
    ensures !ContainsAny(Lower(Join(cvKeywords, " ")), SummaryWords) ==> SummaryAdvice in r
    ensures !ContainsAny(Lower(Join(cvKeywords, " ")), SkillsWords) ==> SkillsAdvice in r
    ensures r == [] <==>
              && score >= 60 && missing == [] && HasDigit(Join(cvKeywords, " "))
              && CountContained(RouteVerbs, Lower(Join(cvKeywords, " "))) >= 3
              && ContainsAny(Lower(Join(cvKeywords, " ")), SummaryWords)
              && ContainsAny(Lower(Join(cvKeywords, " ")), SkillsWords)
  {
    var joined := Join(cvKeywords, " ");
    Rule(score < 60, KeywordsAdvice)
    + Rule(missing != [], MissingAdvice(missing))
    + Rule(!HasDigit(joined), NumbersAdvice)
    + Rule(CountContained(RouteVerbs, Lower(joined)) < 3, VerbsAdvice)
    + Rule(!ContainsAny(Lower(joined), SummaryWords), SummaryAdvice)
    + Rule(!ContainsAny(Lower(joined), SkillsWords), SkillsAdvice)
  }

  /** The six improvement messages, in rule order. */
  function ImprovementMessages(missing: seq<string>): seq<string>
  {
    [KeywordsAdvice, MissingAdvice(missing), NumbersAdvice, VerbsAdvice, SummaryAdvice, SkillsAdvice]
  }

  /** Which of the six improvement rules fire. */
  function ImprovementRules(score: int, missing: seq<string>, cvKeywords: seq<string>): seq<bool>
  {
    var joined := Join(cvKeywords, " ");
    [score < 60, missing != [], !HasDigit(joined), CountContained(RouteVerbs, Lower(joined)) < 3,
     !ContainsAny(Lower(joined), SummaryWords), !ContainsAny(Lower(joined), SkillsWords)]
  }

  lemma ImprovementMessagesDistinct(missing: seq<string>)
    ensures NoDups(ImprovementMessages(missing))
  {
    var xs := ImprovementMessages(missing);
    // The fixed messages differ in length, and only the missing-keywords message has ':' at index 30.
    assert |KeywordsAdvice| == 66 && |NumbersAdvice| == 61 && |VerbsAdvice| == 58 && |SummaryAdvice| == 45 && |SkillsAdvice| == 65;
    assert KeywordsAdvice[30] != ':';
    assert NumbersAdvice[30] != ':';
    assert VerbsAdvice[30] != ':';
    assert SummaryAdvice[30] != ':';
    assert SkillsAdvice[30] != ':';
    assert MissingAdvice(missing)[30] == ':';
  }

  /** The suggestions are the messages of the rules that fire, in rule order. */
  lemma ImprovementsSelected(score: int, missing: seq<string>, cvKeywords: seq<string>)
    ensures Improvements(score, missing, cvKeywords)
         == Select(ImprovementMessages(missing), ImprovementRules(score, missing, cvKeywords))
  {
    SelectSix(ImprovementMessages(missing), ImprovementRules(score, missing, cvKeywords));
  }

  /** Each message is listed exactly when its rule fires. */
  lemma ImprovementsListed(score: int, missing: seq<string>, cvKeywords: seq<string>)
    ensures forall i :: 0 <= i < 6 ==>
              (ImprovementMessages(missing)[i] in Improvements(score, missing, cvKeywords)
               <==> ImprovementRules(score, missing, cvKeywords)[i])
  {
    var xs := ImprovementMessages(missing);
    var keep := ImprovementRules(score, missing, cvKeywords);
    ImprovementsSelected(score, missing, cvKeywords);
    ImprovementMessagesDistinct(missing);
    forall i | 0 <= i < 6
      ensures xs[i] in Select(xs, keep) <==> keep[i]
    {
      SelectMember(xs, keep, i);
    }
  }

  /** `generate_improvement_suggestions`: six independent checks, each appending its message. */
  method GenerateImprovementSuggestions(scoreData: Compatibility, jobKeywords: seq<string>, cvKeywords: seq<string>)
    returns (suggestions: seq<string>)
    ensures suggestions == Improvements(scoreData.score, scoreData.missing, cvKeywords)
  {
    var score := scoreData.score;
    var missing := scoreData.missing;
    var joined := Join(cvKeywords, " ");
    var lowScore := score < 60;
    var anyMissing := |missing| > 0;
    var noNumbers := !HasDigit(joined);
    var fewVerbs := CountContained(RouteVerbs, Lower(joined)) < 3;
    var noSummary := !ContainsAny(Lower(joined), SummaryWords);
    var noSkills := !ContainsAny(Lower(joined), SkillsWords);
    suggestions := [];
    if lowScore {
      suggestions := suggestions + [KeywordsAdvice];
    }
    assert suggestions == Rule(lowScore, KeywordsAdvice);
    if anyMissing {
      suggestions := suggestions + [MissingAdvice(missing)];
    }
    assert suggestions == Rule(lowScore, KeywordsAdvice) + Rule(anyMissing, MissingAdvice(missing));
    if noNumbers {
      suggestions := suggestions + [NumbersAdvice];
    }
    assert suggestions == Rule(lowScore, KeywordsAdvice) + Rule(anyMissing, MissingAdvice(missing))
      + Rule(noNumbers, NumbersAdvice);
    if fewVerbs {
      suggestions := suggestions + [VerbsAdvice];
    }
    assert suggestions == Rule(lowScore, KeywordsAdvice) + Rule(anyMissing, MissingAdvice(missing))
      + Rule(noNumbers, NumbersAdvice) + Rule(fewVerbs, VerbsAdvice);
    if noSummary {
      suggestions := suggestions + [SummaryAdvice];
    }
    assert suggestions == Rule(lowScore, KeywordsAdvice) + Rule(anyMissing, MissingAdvice(missing))
      + Rule(noNumbers, NumbersAdvice) + Rule(fewVerbs, VerbsAdvice) + Rule(noSummary, SummaryAdvice);
    if noSkills {
      suggestions := suggestions + [SkillsAdvice];
    }
  }

  // ---------------------------------------------------------------------
  // The /calculate handler

  datatype AtsResponse = AtsResponse(
    score: nat,
    missingKeywords: seq<string>,
    matchedKeywords: seq<string>,
    suggestions: seq<string>,
    analysis: RouteAnalysis)

  /** The handler's result: the response, or the status and detail of the exception it raises. */
  datatype Outcome = Answered(response: AtsResponse) | Failed(status: nat, cause: string)

  const CvRequired := "CV text is required"
  const JobRequired := "Job description is required"

  /**
   * The response the handler builds from the two keyword lists: the score
   * and the first ten missing keywords of `calculate_compatibility_score`,
   * and the suggestions for that score and those missing keywords.
   */
  ghost predicate AnswerOf(resp: AtsResponse, jobKeywords: seq<string>, cvKeywords: seq<string>)
  {
    && resp.score == CompatibilityScore(jobKeywords, cvKeywords).score
    && resp.missingKeywords == Prefix(AtsMatcher.FindMissing(jobKeywords, cvKeywords), 10)
    && resp.suggestions == Improvements(resp.score, resp.missingKeywords, cvKeywords)
  }

  /**
   * What a response says about the job's and the CV's keyword sets: a score
   * of at most 100, at most ten missing keywords and six suggestions, the
   * matched keywords exactly those in both sets, the missing ones only in
   * the job's set, and counts in the analysis that add up.
   */
  ghost predicate Reports(resp: AtsResponse, jobSet: set<string>, cvSet: set<string>)
  {
    && resp.score <= 100
    && |resp.missingKeywords| <= 10
    && |resp.suggestions| <= 6
    && (forall k :: k in resp.matchedKeywords <==> k in jobSet && k in cvSet)
    && (forall k :: k in resp.missingKeywords ==> k in jobSet && k !in cvSet)
    && (resp.analysis.NoKeywords? <==> jobSet == {})
    && (resp.analysis.Breakdown? ==>
          && resp.analysis.matchedCount == |resp.matchedKeywords|
          && resp.analysis.matchedCount + resp.analysis.missingCount == resp.analysis.totalJobKeywords)
  }

  /**
   * The body of the handler once both texts are known to be non-blank: the
   * score from the two keyword lists, and the suggestions from the score.
   */
  method Respond(jobKeywords: seq<string>, cvKeywords: seq<string>) returns (resp: AtsResponse)
    ensures Reports(resp, Elems(jobKeywords), Elems(cvKeywords))
    ensures resp.analysis.Breakdown? ==> resp.analysis.totalJobKeywords == |jobKeywords|
    ensures AnswerOf(resp, jobKeywords, cvKeywords)
  {
    var scoreData := CompatibilityScore(jobKeywords, cvKeywords);
    var suggestions := GenerateImprovementSuggestions(scoreData, jobKeywords, cvKeywords);
    var missingAll := AtsMatcher.FindMissing(jobKeywords, cvKeywords);
    assert forall k :: k in scoreData.missing ==> k in missingAll;
    resp := AtsResponse(scoreData.score, scoreData.missing, scoreData.matched, suggestions, scoreData.analysis);
  }

  /**
   * `resp` answers the two texts: `jobKeywords` and `cvKeywords` list their
   * keyword sets, `resp` reports on those sets, and it is the response built
   * from those lists.
   */
  ghost predicate Answers(v: Vocabulary, cvText: string, jobDescription: string,
                          resp: AtsResponse, jobKeywords: seq<string>, cvKeywords: seq<string>)
    requires WellFormed(v)
  {
    && Enumerates(jobKeywords, JobKeywordSet(v, jobDescription))
    && Enumerates(cvKeywords, CvKeywordSet(v, cvText))
    && Reports(resp, JobKeywordSet(v, jobDescription), CvKeywordSet(v, cvText))
    && AnswerOf(resp, jobKeywords, cvKeywords)
  }

  /** The keyword lists of the two texts and the response built from them. */
  method Answer(v: Vocabulary, cvText: string, jobDescription: string)
    returns (resp: AtsResponse, ghost jobKeywords: seq<string>, ghost cvKeywords: seq<string>)
    requires WellFormed(v)
    ensures Answers(v, cvText, jobDescription, resp, jobKeywords, cvKeywords)
  {
    var jobList := ExtractJobKeywords(v, jobDescription);
    var cvList := ExtractCvKeywords(v, cvText);
    jobKeywords, cvKeywords := jobList, cvList;
    resp := Respond(jobList, cvList);
    EnumeratedElems(jobList, JobKeywordSet(v, jobDescription));
    EnumeratedElems(cvList, CvKeywordSet(v, cvText));
  }

  /**
   * `calculate_ats_score` (the handler): both texts must be non-blank, then
   * keywords, score and suggestions. The 400 raised for a blank text is
   * caught by the handler's own `except Exception` and re-raised as a 500.
   */
  method CalculateAtsScore(v: Vocabulary, cvText: string, jobDescription: string)
    returns (r: Outcome, ghost jobKeywords: seq<string>, ghost cvKeywords: seq<string>)
    requires WellFormed(v)
    ensures Strip(cvText) == [] ==> r == Failed(500, CvRequired)
    ensures Strip(cvText) != [] && Strip(jobDescription) == [] ==> r == Failed(500, JobRequired)
    ensures r.Failed? <==> Strip(cvText) == [] || Strip(jobDescription) == []
    ensures r.Answered? ==> Answers(v, cvText, jobDescription, r.response, jobKeywords, cvKeywords)
  {
    jobKeywords, cvKeywords := [], [];
    if Strip(cvText) == [] {
      r := Failed(500, CvRequired);
    } else if Strip(jobDescription) == [] {
      r := Failed(500, JobRequired);
    } else {
      var resp;
      resp, jobKeywords, cvKeywords := Answer(v, cvText, jobDescription);
      r := Answered(resp);
    }
  }
}
