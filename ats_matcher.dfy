/**
 * The multi-factor ATS scorer (`ATSMatcher`): vocabulary keyword extraction
 * for a job description and a resume, six category scorers, a weighted
 * overall score clamped to [0, 100], the matched/missing keyword split,
 * suggestions and analysis labels.
 *
 * Vocabulary membership is a substring test on the lower-cased text, so
 * `"java"` is found inside "javascript" and `"r"` in almost any text; the
 * model keeps that. Python's `list(set(...))` becomes a `set` (and, where the
 * scorer needs a list, `ListSet`, whose order is left open).
 */
module AtsMatcher {
  import opened Seqs
  import opened Text
  import opened Patterns

  /** The scorer's read-only state: the three vocabularies its constructor sets. */
  datatype Matcher = Matcher(technicalSkills: seq<string>, softSkills: seq<string>, actionVerbs: seq<string>)

  /** `ATSMatcher()`: the vocabularies as the constructor sets them. */
  const Standard: Matcher := Matcher(
    [
      "javascript", "python", "java", "react", "node.js", "sql", "aws", "docker",
      "kubernetes", "git", "agile", "scrum", "machine learning", "data analysis",
      "html", "css", "typescript", "angular", "vue", "mongodb", "postgresql",
      "redis", "elasticsearch", "kafka", "microservices", "api", "rest", "graphql",
      "tensorflow", "pytorch", "pandas", "numpy", "scikit-learn", "jupyter",
      "jenkins", "terraform", "ansible", "linux", "bash", "powershell",
      "tableau", "power bi", "excel", "vba", "r", "matlab", "spark", "hadoop"
    ],
    [
      "leadership", "communication", "teamwork", "problem solving", "project management",
      "collaboration", "time management", "adaptability", "creativity", "analytical",
      "critical thinking", "attention to detail", "multitasking", "mentoring",
      "negotiation", "presentation", "writing", "research", "organization",
      "customer service", "sales", "marketing", "strategy", "innovation"
    ],
    [
      "led", "developed", "implemented", "increased", "improved", "managed", "created",
      "designed", "built", "launched", "optimized", "streamlined", "coordinated",
      "supervised", "trained", "mentored", "collaborated", "delivered", "achieved",
      "accomplished", "executed", "facilitated", "initiated", "organized", "planned"
    ])

  const YearsSignal := "years experience"

  // ---------------------------------------------------------------------
  // Keyword extraction

  /** The experience signal words of the job side, each added when its test holds. */
  function ExperienceSignals(lower: string): (r: seq<string>)
    ensures YearsSignal in r <==> SearchYears(lower, NoTail).Some?
    ensures forall w :: w in r && w != YearsSignal ==> Contains(lower, w)
    ensures forall w :: w in ["senior", "junior", "lead"] ==> (w in r <==> Contains(lower, w))
  {
    (if SearchYears(lower, NoTail).Some? then [YearsSignal] else [])
    + (if Contains(lower, "senior") then ["senior"] else [])
    + (if Contains(lower, "junior") then ["junior"] else [])
    + (if Contains(lower, "lead") then ["lead"] else [])
  }

  /**
   * The elements of `extract_job_keywords`'s result: the technical and soft
   * terms found, the capitalised runs and the experience signal words.
   */
  function JobKeywordSet(m: Matcher, job: string): (r: set<string>)
    ensures job == [] ==> r == {}
    ensures forall k :: k in r && k != YearsSignal ==> Contains(Lower(job), k)
    ensures job != [] ==>
              forall t :: t in m.technicalSkills + m.softSkills && t != YearsSignal ==> (t in r <==> Contains(Lower(job), t))
    ensures job != [] ==> forall w :: w in ["senior", "junior", "lead"] ==> (w in r <==> Contains(Lower(job), w))
    ensures job != [] && SearchYears(Lower(job), NoTail).Some? ==> YearsSignal in r
    ensures YearsSignal in r ==> SearchYears(Lower(job), NoTail).Some? || Contains(Lower(job), YearsSignal)
  {
    if job == [] then {}
    else set k | k in JobKeywordList(m, job)
  }

  /** The job keywords in the order `extract_job_keywords` collects them, repeats included. */
  function JobKeywordList(m: Matcher, job: string): seq<string>
  {
    var lower := Lower(job);
    Occurring(m.technicalSkills, lower) + Occurring(m.softSkills, lower) + CapKeywords(job) + ExperienceSignals(lower)
  }

  /** Every capitalised run of the job text longer than two characters is a job keyword, lower-cased. */
  lemma JobKeywordRuns(m: Matcher, job: string)
    ensures job != [] ==> forall run :: run in CapRuns(job, 0) && |run| > 2 ==> Lower(run) in JobKeywordSet(m, job)
  {
    if job != [] {
      forall run | run in CapRuns(job, 0) && |run| > 2
        ensures Lower(run) in JobKeywordSet(m, job)
      {
        assert Lower(run) in CapKeywords(job);
        assert Lower(run) in JobKeywordList(m, job);
      }
    }
  }

  /** Every job keyword is a vocabulary term, a lower-cased capitalised run or an experience signal word. */
  lemma JobKeywordSources(m: Matcher, job: string)
    ensures forall k :: k in JobKeywordSet(m, job) ==>
              k in m.technicalSkills + m.softSkills || k in CapKeywords(job) || k in ExperienceSignals(Lower(job))
  {
    var lower := Lower(job);
    assert forall k :: k in Occurring(m.technicalSkills, lower) + Occurring(m.softSkills, lower) ==>
      k in m.technicalSkills + m.softSkills;
  }

  /**
   * The elements of `extract_resume_keywords`'s result: the technical, soft
   * and action-verb terms found and the capitalised runs.
   */
  function ResumeKeywordSet(m: Matcher, resume: string): (r: set<string>)
    ensures resume == [] ==> r == {}
    ensures forall k :: k in r ==> Contains(Lower(resume), k)
    ensures resume != [] ==>
              forall t :: t in m.technicalSkills + m.softSkills + m.actionVerbs ==> (t in r <==> Contains(Lower(resume), t))
    ensures resume != [] ==> forall run :: run in CapRuns(resume, 0) && |run| > 2 ==> Lower(run) in r
    ensures forall k :: k in r ==> k in m.technicalSkills + m.softSkills + m.actionVerbs || k in CapKeywords(resume)
  {
    if resume == [] then {}
    else
      var lower := Lower(resume);
      var all := Occurring(m.technicalSkills, lower) + Occurring(m.softSkills, lower)
        + Occurring(m.actionVerbs, lower) + CapKeywords(resume);
      set k | k in all
  }

  /** `extract_job_keywords`: the set listed without duplicates, in an order the source leaves open. */
  method ExtractJobKeywords(m: Matcher, job: string) returns (r: seq<string>)
    ensures NoDups(r)
    ensures forall k :: k in r <==> k in JobKeywordSet(m, job)
    ensures job == [] ==> r == []
  {
    r := ListSet(JobKeywordSet(m, job));
  }

  /** `extract_resume_keywords`, listed the same way. */
  method ExtractResumeKeywords(m: Matcher, resume: string) returns (r: seq<string>)
    ensures NoDups(r)
    ensures forall k :: k in r <==> k in ResumeKeywordSet(m, resume)
    ensures resume == [] ==> r == []
  {
    r := ListSet(ResumeKeywordSet(m, resume));
  }

  // ---------------------------------------------------------------------
  // Match scores

  /** A score's `matched` entry: the integer 0 when there is nothing to match, otherwise the list of matched terms. */
  datatype Matched = MatchedZero | MatchedTerms(terms: seq<string>)
  {
    /** The matched terms; none for the integer 0. */
    function Terms(): seq<string>
    {
      if MatchedTerms? then terms else []
    }
  }

  datatype MatchScore = MatchScore(score: nat, matched: Matched, total: nat, percentage: real)

  /** `score / total * 100`, exact. */
  function Percentage(score: nat, total: nat): (p: real)
    requires score <= total && total > 0
    ensures 0.0 <= p <= 100.0
    ensures score == 0 <==> p == 0.0
    ensures score == total <==> p == 100.0
  {
    (score as real) / (total as real) * 100.0
  }

  /** The percentage is the share of `total` that `score` is, scaled to 100. */
  lemma PercentageShare(score: nat, total: nat)
    requires score <= total && total > 0
    ensures Percentage(score, total) * (total as real) == (score as real) * 100.0
  {
  }

  /** `find_matched_keywords`: the job keywords the resume also has, in job order. */
  function FindMatched(job: seq<string>, resume: seq<string>): (r: seq<string>)
    ensures |r| <= |job|
    ensures IsSubseq(r, job)
    ensures forall k :: k in r <==> k in job && k in resume
  {
    var p := (k: string) => k in resume;
    FilterIsSubseq(job, p);
    Filter(job, p)
  }

  /** `find_missing_keywords`: the job keywords the resume lacks, in job order. */
  function FindMissing(job: seq<string>, resume: seq<string>): (r: seq<string>)
    ensures |r| <= |job|
    ensures IsSubseq(r, job)
    ensures forall k :: k in r <==> k in job && k !in resume
  {
    var p := (k: string) => k !in resume;
    FilterIsSubseq(job, p);
    Filter(job, p)
  }

  /** Matched and missing split the job keywords: together they account for every one of them. */
  lemma MatchedMissingPartition(job: seq<string>, resume: seq<string>)
    ensures |FindMatched(job, resume)| + |FindMissing(job, resume)| == |job|
  {
    FilterPartition(job, (k: string) => k in resume, (k: string) => k !in resume);
  }

  /** `calculate_keyword_match` */
  function KeywordMatch(job: seq<string>, resume: seq<string>): (r: MatchScore)
    ensures job == [] ==> r == MatchScore(0, MatchedZero, 0, 0.0)
    ensures job != [] ==> r.matched.MatchedTerms?
    ensures IsSubseq(r.matched.Terms(), job)
    ensures forall k :: k in r.matched.Terms() <==> k in job && k in resume
    ensures r.score == |r.matched.Terms()| <= r.total == |job|
    ensures 0.0 <= r.percentage <= 100.0
    ensures job != [] ==> r.percentage == Percentage(r.score, r.total)
  {
    if job == [] then MatchScore(0, MatchedZero, 0, 0.0)
    else
      var m := FindMatched(job, resume);
      MatchScore(|m|, MatchedTerms(m), |job|, Percentage(|m|, |job|))
  }

  /**
   * `calculate_technical_skills_match` and `calculate_soft_skills_match`:
   * the vocabulary terms found in both texts, out of those found in the job.
   */
  function SkillMatch(vocab: seq<string>, resume: string, job: string): (r: MatchScore)
    ensures r.total == |Occurring(vocab, Lower(job))|
    ensures r.total == 0 ==> r == MatchScore(0, MatchedZero, 0, 0.0)
    ensures r.total > 0 ==> r.matched.MatchedTerms?
    ensures IsSubseq(r.matched.Terms(), Occurring(vocab, Lower(job)))
    ensures forall t :: t in r.matched.Terms() <==> t in vocab && Contains(Lower(job), t) && Contains(Lower(resume), t)
    ensures r.score == |r.matched.Terms()| <= r.total
    ensures 0.0 <= r.percentage <= 100.0
    ensures r.total > 0 ==> r.percentage == Percentage(r.score, r.total)
  {
    KeywordMatch(Occurring(vocab, Lower(job)), Occurring(vocab, Lower(resume)))
  }

  function TechnicalMatch(m: Matcher, resume: string, job: string): MatchScore
  {
    SkillMatch(m.technicalSkills, resume, job)
  }

  function SoftSkillsMatch(m: Matcher, resume: string, job: string): MatchScore
  {
    SkillMatch(m.softSkills, resume, job)
  }

  // ---------------------------------------------------------------------
  // Years of experience

  /** Every number captured by the three years patterns on the lower-cased text. */
  function AllYears(lower: string): seq<nat>
  {
    YearsOf(lower, YearsTails)
  }

  /** The three patterns in the order the loop tries them: bare, `of experience`, `in`. */
  const YearsTails: seq<YearsTail> := [NoTail, OfExperience, InTail]

  /** The numbers the given patterns capture, pattern after pattern. */
  function YearsOf(lower: string, tails: seq<YearsTail>): seq<nat>
  {
    if tails == [] then [] else YearsOf(lower, tails[..|tails| - 1]) + FindYears(lower, 0, tails[|tails| - 1])
  }

  /** What `extract_years_from_text` returns: the largest number any years pattern captures, or 0. */
  function YearsFromText(text: string): (r: nat)
    ensures text == [] ==> r == 0
    ensures forall y :: y in AllYears(Lower(text)) ==> y <= r
    ensures r == 0 || r in AllYears(Lower(text))
  {
    if text == [] then
      NoYearsInEmpty(Lower(text), YearsTails);
      0
    else MaxFrom(0, AllYears(Lower(text)))
  }

  /** No pattern captures anything in an empty text. */
  lemma {:induction false} NoYearsInEmpty(lower: string, tails: seq<YearsTail>)
    requires lower == []
    ensures YearsOf(lower, tails) == []
    decreases |tails|
  {
    if tails != [] {
      NoYearsInEmpty(lower, tails[..|tails| - 1]);
    }
  }

  /** `extract_years_from_text`: the nested loop over patterns and their matches. */
  method ExtractYearsFromText(text: string) returns (maxYears: nat)
    ensures maxYears == YearsFromText(text)
  {
    if text == [] {
      return 0;
    }
    var lower := Lower(text);
    var patterns := YearsTails;
    ghost var done: seq<nat> := [];
    maxYears := 0;
    assert patterns[..0] == [];
    for i := 0 to |patterns|
      invariant maxYears == MaxFrom(0, done)
      invariant done == YearsOf(lower, patterns[..i])
    {
      var matches := FindYears(lower, 0, patterns[i]);
      assert patterns[..i + 1][..i] == patterns[..i];
      assert matches[..0] == [];
      for j := 0 to |matches|
        invariant maxYears == MaxFrom(MaxFrom(0, done), matches[..j])
      {
        MaxFromAppend(MaxFrom(0, done), matches[..j], [matches[j]]);
        assert matches[..j + 1] == matches[..j] + [matches[j]];
        if matches[j] > maxYears {
          maxYears := matches[j];
        }
      }
      assert matches[..|matches|] == matches;
      MaxFromAppend(0, done, matches);
      done := done + matches;
    }
    assert patterns[..|patterns|] == patterns;
  }

  datatype ExperienceScore = ExperienceScore(score: nat, jobYears: nat, resumeYears: nat, isMatch: bool)

  /** The experience score for the required and the offered years; 0.8 and 0.6 of the requirement as exact fractions. */
  function ExperienceFor(jobYears: nat, resumeYears: nat): (r: ExperienceScore)
    ensures r.jobYears == jobYears && r.resumeYears == resumeYears
    ensures jobYears == 0 ==> r.score == 50 && r.isMatch
    ensures jobYears > 0 ==> (r.isMatch <==> resumeYears >= jobYears)
    ensures jobYears > 0 ==> r.score in {100, 80, 60, 30}
    ensures jobYears > 0 ==> (r.score == 100 <==> resumeYears >= jobYears)
    ensures jobYears > 0 ==> (r.score >= 80 <==> 5 * resumeYears >= 4 * jobYears)
    ensures jobYears > 0 ==> (r.score >= 60 <==> 5 * resumeYears >= 3 * jobYears)
  {
    if jobYears == 0 then ExperienceScore(50, 0, resumeYears, true)
    else
      var score :=
        if resumeYears >= jobYears then 100
        else if 5 * resumeYears >= 4 * jobYears then 80
        else if 5 * resumeYears >= 3 * jobYears then 60
        else 30;
      ExperienceScore(score, jobYears, resumeYears, resumeYears >= jobYears)
  }

  /** More years on the resume never lower the experience score. */
  lemma ExperienceMonotone(jobYears: nat, fewer: nat, more: nat)
    requires fewer <= more
    ensures ExperienceFor(jobYears, fewer).score <= ExperienceFor(jobYears, more).score
  {
  }

  /** The experience score of a resume against a job. */
  function ExperienceMatch(resume: string, job: string): ExperienceScore
  {
    ExperienceFor(YearsFromText(job), YearsFromText(resume))
  }

  /** `calculate_experience_match`: the years of each side, then the score. */
  method CalculateExperienceMatch(resume: string, job: string) returns (r: ExperienceScore)
    ensures r == ExperienceMatch(resume, job)
  {
    var jobYears := ExtractYearsFromText(job);
    var resumeYears := ExtractYearsFromText(resume);
    r := ExperienceFor(jobYears, resumeYears);
  }

  // ---------------------------------------------------------------------
  // Education

  const EducationLabels: seq<string> := ["Bachelor's Degree", "Master's Degree", "PhD", "Certification"]

  function EducationFlags(lower: string): seq<bool>
  {
    [ Contains(lower, "bachelor") || Contains(lower, "bachelor's"),
      Contains(lower, "master") || Contains(lower, "master's"),
      Contains(lower, "phd") || Contains(lower, "doctorate"),
      Contains(lower, "certification") || Contains(lower, "certified") ]
  }

  /** The education labels of a text: an order-preserving selection of the four labels. */
  function Education(text: string): (r: seq<string>)
    ensures IsSubseq(r, EducationLabels)
    ensures forall i :: 0 <= i < |EducationLabels| ==> (EducationLabels[i] in r <==> EducationFlags(Lower(text))[i])
  {
    var flags := EducationFlags(Lower(text));
    SelectIsSubseq(EducationLabels, flags);
    forall i | 0 <= i < |EducationLabels|
      ensures EducationLabels[i] in Select(EducationLabels, flags) <==> flags[i]
    {
      SelectMember(EducationLabels, flags, i);
    }
    Select(EducationLabels, flags)
  }

  /** `extract_education_requirements`: one test per label, appending in label order. */
  method ExtractEducationRequirements(text: string) returns (requirements: seq<string>)
    ensures requirements == Select(EducationLabels, EducationFlags(Lower(text)))
  {
    var flags := EducationFlags(Lower(text));
    SelectFour(EducationLabels, flags);
    requirements := [];
    if flags[0] {
      requirements := requirements + ["Bachelor's Degree"];
    }
    assert requirements == Rule(flags[0], EducationLabels[0]);
    if flags[1] {
      requirements := requirements + ["Master's Degree"];
    }
    assert requirements == Rule(flags[0], EducationLabels[0]) + Rule(flags[1], EducationLabels[1]);
    if flags[2] {
      requirements := requirements + ["PhD"];
    }
    assert requirements == Rule(flags[0], EducationLabels[0]) + Rule(flags[1], EducationLabels[1])
      + Rule(flags[2], EducationLabels[2]);
    if flags[3] {
      requirements := requirements + ["Certification"];
    }
  }

  /** `extract_education_from_resume`: the same four tests as the job side. */
  method ExtractEducationFromResume(text: string) returns (education: seq<string>)
    ensures education == Select(EducationLabels, EducationFlags(Lower(text)))
  {
    education := ExtractEducationRequirements(text);
  }

  datatype EducationScore = EducationScore(score: nat, jobEducation: seq<string>, resumeEducation: seq<string>, isMatch: bool)

  /** `calculate_education_match` */
  function EducationMatch(resume: string, job: string): (r: EducationScore)
    ensures r.resumeEducation == Education(resume) && r.jobEducation == Education(job)
    ensures Education(job) == [] ==> r.score == 50 && r.isMatch
    ensures Education(job) != [] ==> (r.isMatch <==> exists l :: l in Education(job) && l in Education(resume))
    ensures Education(job) != [] ==> r.score == (if r.isMatch then 100 else 30)
  {
    var jobEducation := Education(job);
    var resumeEducation := Education(resume);
    if jobEducation == [] then EducationScore(50, [], resumeEducation, true)
    else
      var isMatch := exists l :: l in jobEducation && l in resumeEducation;
      EducationScore(if isMatch then 100 else 30, jobEducation, resumeEducation, isMatch)
  }

  /** `calculate_education_match`: the education of each side, then the score. */
  method CalculateEducationMatch(resume: string, job: string) returns (r: EducationScore)
    ensures r == EducationMatch(resume, job)
  {
    var jobEducation := ExtractEducationRequirements(job);
    var resumeEducation := ExtractEducationFromResume(resume);
    if jobEducation == [] {
      r := EducationScore(50, [], resumeEducation, true);
    } else {
      var isMatch := exists l :: l in jobEducation && l in resumeEducation;
      r := EducationScore(if isMatch then 100 else 30, jobEducation, resumeEducation, isMatch);
    }
  }

  // ---------------------------------------------------------------------
  // Action verbs

  datatype VerbScore = VerbScore(score: nat, foundVerbs: seq<string>, count: nat)

  /** `calculate_action_verbs_score`: ten points per vocabulary verb found, at most 100. */
  function ActionVerbsScore(m: Matcher, resume: string): (r: VerbScore)
    ensures forall v :: v in r.foundVerbs <==> v in m.actionVerbs && Contains(Lower(resume), v)
    ensures IsSubseq(r.foundVerbs, m.actionVerbs)
    ensures r.count == |r.foundVerbs| <= |m.actionVerbs|
    ensures r.score <= 100
    ensures r.count <= 10 ==> r.score == 10 * r.count
    ensures r.count >= 10 ==> r.score == 100
  {
    var found := Occurring(m.actionVerbs, Lower(resume));
    VerbScore(if 10 * |found| < 100 then 10 * |found| else 100, found, |found|)
  }

  // ---------------------------------------------------------------------
  // Overall score

  datatype Category = KeywordCategory | TechnicalCategory | SoftSkillsCategory
                    | ExperienceCategory | EducationCategory | ActionVerbsCategory

  /** The category weights, in hundredths, in the order the loop visits them. */
  const Weights: seq<(Category, nat)> := [
    (KeywordCategory, 30), (TechnicalCategory, 25), (SoftSkillsCategory, 15),
    (ExperienceCategory, 15), (EducationCategory, 10), (ActionVerbsCategory, 5)
  ]

  function WeightTotal(ws: seq<(Category, nat)>): nat
  {
    if ws == [] then 0 else WeightTotal(ws[..|ws| - 1]) + ws[|ws| - 1].1
  }

  /** The weights add up to one. */
  lemma WeightsSumToOne()
    ensures WeightTotal(Weights) == 100
  {
    var w := Weights;
    assert WeightTotal(w[..1]) == 30 by { assert w[..1][..|w[..1]| - 1] == w[..0]; }
    assert WeightTotal(w[..2]) == 55 by { assert w[..2][..1] == w[..1]; }
    assert WeightTotal(w[..3]) == 70 by { assert w[..3][..2] == w[..2]; }
    assert WeightTotal(w[..4]) == 85 by { assert w[..4][..3] == w[..3]; }
    assert WeightTotal(w[..5]) == 95 by { assert w[..5][..4] == w[..4]; }
    assert WeightTotal(w) == 100 by { assert w[..5] == w[..|w| - 1]; }
  }

  /** `sum(scores[c] * w)` in hundredths over the categories present. */
  function WeightedSum(scores: map<Category, nat>, ws: seq<(Category, nat)>): nat
  {
    if ws == [] then 0
    else
      var (c, w) := ws[|ws| - 1];
      WeightedSum(scores, ws[..|ws| - 1]) + (if c in scores then scores[c] * w else 0)
  }

  /** Python's `round` of `hundredths / 100`: to the nearest integer, ties to the even one. */
  function RoundHalfEven(hundredths: nat): (r: nat)
    ensures hundredths <= 100 * r + 50 && 100 * r <= hundredths + 50
    ensures 100 * r + 50 == hundredths || 100 * r == hundredths + 50 ==> r % 2 == 0
  {
    var q := hundredths / 100;
    var rem := hundredths % 100;
    if rem < 50 then q else if rem > 50 then q + 1 else if q % 2 == 0 then q else q + 1
  }

  /** `min(100, max(0, x))` */
  function Clamp(x: int): (r: nat)
    ensures r <= 100
    ensures 0 <= x <= 100 ==> r == x
  {
    if x > 100 then 100 else if x < 0 then 0 else x
  }

  /** The dict of category results `calculate_ats_score` hands to the overall scorer, reduced to each `'score'` field. */
  function CategoryScores(keyword: nat, technical: nat, softSkills: nat, experience: nat, education: nat,
                          actionVerbs: nat): map<Category, nat>
  {
    map[KeywordCategory := keyword, TechnicalCategory := technical, SoftSkillsCategory := softSkills,
        ExperienceCategory := experience, EducationCategory := education, ActionVerbsCategory := actionVerbs]
  }

  /** The overall score the loop computes for the given `'score'` fields. */
  function OverallFor(scores: map<Category, nat>): (r: nat)
    ensures r <= 100
  {
    Clamp(RoundHalfEven(WeightedSum(scores, Weights)))
  }

  /** `calculate_overall_score`: accumulate the weighted scores, then round and clamp. */
  method CalculateOverallScore(scores: map<Category, nat>) returns (overall: nat)
    ensures overall == OverallFor(scores)
    ensures overall <= 100
  {
    var acc: nat := 0;
    for i := 0 to |Weights|
      invariant acc == WeightedSum(scores, Weights[..i])
    {
      var (category, weight) := Weights[i];
      assert Weights[..i + 1][..i] == Weights[..i];
      if category in scores {
        acc := acc + scores[category] * weight;
      }
    }
    assert Weights[..|Weights|] == Weights;
    overall := Clamp(RoundHalfEven(acc));
  }

  /** When every category score is a percentage, the clamp never bites: the result is the rounded weighted mean. */
  lemma OverallOfPercentages(scores: map<Category, nat>)
    requires forall c :: c in scores ==> scores[c] <= 100
    ensures OverallFor(scores) == RoundHalfEven(WeightedSum(scores, Weights))
  {
    WeightedSumBound(scores, Weights);
    WeightsSumToOne();
  }

  lemma {:induction false} WeightedSumBound(scores: map<Category, nat>, ws: seq<(Category, nat)>)
    requires forall c :: c in scores ==> scores[c] <= 100
    ensures WeightedSum(scores, ws) <= 100 * WeightTotal(ws)
  {
    if ws != [] {
      WeightedSumBound(scores, ws[..|ws| - 1]);
      var (c, w) := ws[|ws| - 1];
      if c in scores {
        assert scores[c] * w <= 100 * w by {
          assert scores[c] <= 100;
        }
      }
    }
  }

  /**
   * The weighted value of the keyword, technical and soft-skill categories is
   * their matched COUNT: one keyword, one technical and one soft skill matched
   * out of one each (100% apiece) with full marks elsewhere gives 31, not 100.
   */
  lemma CountNotPercentage()
    ensures OverallFor(map[KeywordCategory := 1, TechnicalCategory := 1, SoftSkillsCategory := 1,
                           ExperienceCategory := 100, EducationCategory := 100, ActionVerbsCategory := 100]) == 31
  {
    var m := map[KeywordCategory := 1, TechnicalCategory := 1, SoftSkillsCategory := 1,
                 ExperienceCategory := 100, EducationCategory := 100, ActionVerbsCategory := 100];
    var w := Weights;
    assert WeightedSum(m, w[..1]) == 30 by { assert w[..1][..|w[..1]| - 1] == w[..0]; }
    assert WeightedSum(m, w[..2]) == 55 by { assert w[..2][..1] == w[..1]; }
    assert WeightedSum(m, w[..3]) == 70 by { assert w[..3][..2] == w[..2]; }
    assert WeightedSum(m, w[..4]) == 1570 by { assert w[..4][..3] == w[..3]; }
    assert WeightedSum(m, w[..5]) == 2570 by { assert w[..5][..4] == w[..4]; }
    assert WeightedSum(m, w) == 3070 by { assert w[..5] == w[..|w| - 1]; }
  }

  // ---------------------------------------------------------------------
  // Suggestions and analysis

  const SummaryWords: seq<string> := ["summary", "objective", "profile"]

  const LowScoreAdvice := "Add more relevant keywords from the job description"
  const NumbersAdvice := "Add quantified achievements with specific numbers and metrics"
  const VerbsAdvice := "Use more strong action verbs to describe your achievements"
  const SummaryAdvice := "Add a compelling professional summary section"

  /** The message naming the first five missing keywords. */
  function MissingAdvice(missing: seq<string>): string
  {
    "Consider adding these keywords: " + Join(Prefix(missing, 5), ", ")
  }

  /** The suggestions for a score, the missing keywords and the resume: the five rules in order. */
  function Suggestions(m: Matcher, overall: int, missing: seq<string>, resume: string): (r: seq<string>)
    ensures |r| <= 5
    ensures overall < 60 ==> LowScoreAdvice in r
    ensures missing != [] ==> MissingAdvice(missing) in r
    ensures !HasDigit(resume) ==> NumbersAdvice in r
    ensures CountContained(m.actionVerbs, Lower(resume)) < 3 ==> VerbsAdvice in r
    ensures !ContainsAny(Lower(resume), SummaryWords) ==> SummaryAdvice in r
    ensures r == [] <==>
              && overall >= 60 && missing == [] && HasDigit(resume)
              && CountContained(m.actionVerbs, Lower(resume)) >= 3 && ContainsAny(Lower(resume), SummaryWords)
  {
    Rule(overall < 60, LowScoreAdvice)
    + Rule(missing != [], MissingAdvice(missing))
    + Rule(!HasDigit(resume), NumbersAdvice)
    + Rule(CountContained(m.actionVerbs, Lower(resume)) < 3, VerbsAdvice)
    + Rule(!ContainsAny(Lower(resume), SummaryWords), SummaryAdvice)
  }

  /** The five suggestion messages, in rule order. */
  function SuggestionMessages(missing: seq<string>): seq<string>
  {
    [LowScoreAdvice, MissingAdvice(missing), NumbersAdvice, VerbsAdvice, SummaryAdvice]
  }

  /** Which of the five suggestion rules fire. */
  function SuggestionRules(m: Matcher, overall: int, missing: seq<string>, resume: string): seq<bool>
  {
    [overall < 60, missing != [], !HasDigit(resume),
     CountContained(m.actionVerbs, Lower(resume)) < 3, !ContainsAny(Lower(resume), SummaryWords)]
  }

  lemma SuggestionMessagesDistinct(missing: seq<string>)
    ensures NoDups(SuggestionMessages(missing))
  {
    var xs := SuggestionMessages(missing);
    // The fixed messages differ in length, and only the missing-keywords message has ':' at index 30.
    assert |LowScoreAdvice| == 51 && |NumbersAdvice| == 61 && |VerbsAdvice| == 58 && |SummaryAdvice| == 45;
    assert LowScoreAdvice[30] != ':';
    assert NumbersAdvice[30] != ':';
    assert VerbsAdvice[30] != ':';
    assert SummaryAdvice[30] != ':';
    assert MissingAdvice(missing)[30] == ':';
  }

  /** The suggestions are the messages of the rules that fire, in rule order. */
  lemma SuggestionsSelected(m: Matcher, overall: int, missing: seq<string>, resume: string)
    ensures Suggestions(m, overall, missing, resume)
         == Select(SuggestionMessages(missing), SuggestionRules(m, overall, missing, resume))
  {
    SelectFive(SuggestionMessages(missing), SuggestionRules(m, overall, missing, resume));
  }

  /** Each suggestion message is listed exactly when its rule fires. */
  lemma SuggestionsListed(m: Matcher, overall: int, missing: seq<string>, resume: string)
    ensures forall i :: 0 <= i < 5 ==>
              (SuggestionMessages(missing)[i] in Suggestions(m, overall, missing, resume)
               <==> SuggestionRules(m, overall, missing, resume)[i])
  {
    var xs := SuggestionMessages(missing);
    var keep := SuggestionRules(m, overall, missing, resume);
    SuggestionsSelected(m, overall, missing, resume);
    SuggestionMessagesDistinct(missing);
    forall i | 0 <= i < 5
      ensures xs[i] in Select(xs, keep) <==> keep[i]
    {
      SelectMember(xs, keep, i);
    }
  }

  /** `generate_suggestions`: five independent rules, each appending its message, in rule order. */
  method GenerateSuggestions(m: Matcher, overall: int, missing: seq<string>, resume: string, job: string)
    returns (suggestions: seq<string>)
    ensures suggestions == Suggestions(m, overall, missing, resume)
  {
    var lowScore := overall < 60;
    var anyMissing := missing != [];
    var noNumbers := !HasDigit(resume);
    var fewVerbs := CountContained(m.actionVerbs, Lower(resume)) < 3;
    var noSummary := !ContainsAny(Lower(resume), SummaryWords);
    suggestions := [];
    if lowScore {
      suggestions := suggestions + [LowScoreAdvice];
    }
    assert suggestions == Rule(lowScore, LowScoreAdvice);
    if anyMissing {
      suggestions := suggestions + [MissingAdvice(missing)];
    }
    assert suggestions == Rule(lowScore, LowScoreAdvice) + Rule(anyMissing, MissingAdvice(missing));
    if noNumbers {
      suggestions := suggestions + [NumbersAdvice];
    }
    assert suggestions == Rule(lowScore, LowScoreAdvice) + Rule(anyMissing, MissingAdvice(missing))
      + Rule(noNumbers, NumbersAdvice);
    if fewVerbs {
      suggestions := suggestions + [VerbsAdvice];
    }
    assert suggestions == Rule(lowScore, LowScoreAdvice) + Rule(anyMissing, MissingAdvice(missing))
      + Rule(noNumbers, NumbersAdvice) + Rule(fewVerbs, VerbsAdvice);
    if noSummary {
      suggestions := suggestions + [SummaryAdvice];
    }
  }

  datatype Analysis = Analysis(overall: string, keywords: string, technical: string)

  /** Which of four bands a score falls in, on the 80/60/40 thresholds: 0 is the top band. */
  function OverallBand(score: int): (band: nat)
    ensures band <= 3
    ensures band == 0 <==> score >= 80
    ensures band == 1 <==> 60 <= score < 80
    ensures band == 2 <==> 40 <= score < 60
    ensures band == 3 <==> score < 40
  {
    if score >= 80 then 0 else if score >= 60 then 1 else if score >= 40 then 2 else 3
  }

  /** Which of three bands a percentage falls in, on the 70/50 thresholds: 0 is the top band. */
  function MatchBand(percentage: real): (band: nat)
    ensures band <= 2
    ensures band == 0 <==> percentage >= 70.0
    ensures band == 1 <==> 50.0 <= percentage < 70.0
    ensures band == 2 <==> percentage < 50.0
  {
    if percentage >= 70.0 then 0 else if percentage >= 50.0 then 1 else 2
  }

  const OverallLabels: seq<string> := [
    "Excellent ATS compatibility",
    "Good compatibility, minor improvements needed",
    "Fair compatibility, significant improvements needed",
    "Poor compatibility, major optimization required"
  ]

  const KeywordLabels: seq<string> := ["Strong keyword match", "Moderate keyword match", "Weak keyword match"]

  const TechnicalLabels: seq<string> :=
    ["Strong technical skills match", "Moderate technical skills match", "Weak technical skills match"]

  /** `generate_analysis`: the label of each band. */
  function GenerateAnalysis(overall: int, keyword: MatchScore, technical: MatchScore): (a: Analysis)
    ensures a.overall == OverallLabels[OverallBand(overall)]
    ensures a.keywords == KeywordLabels[MatchBand(keyword.percentage)]
    ensures a.technical == TechnicalLabels[MatchBand(technical.percentage)]
  {
    Analysis(OverallLabels[OverallBand(overall)], KeywordLabels[MatchBand(keyword.percentage)],
             TechnicalLabels[MatchBand(technical.percentage)])
  }

  // ---------------------------------------------------------------------
  // The whole report

  datatype AtsReport = AtsReport(
    overall: nat,
    keyword: MatchScore,
    technical: MatchScore,
    softSkills: MatchScore,
    experience: ExperienceScore,
    education: EducationScore,
    actionVerbs: VerbScore,
    missing: seq<string>,
    suggestions: seq<string>,
    matched: seq<string>,
    analysis: Analysis)

  /** The keyword facts `calculate_ats_score` reports: the job's keywords split into those the resume has and those it misses. */
  ghost predicate KeywordSplit(m: Matcher, resume: string, job: string, keyword: MatchScore, matched: seq<string>, missing: seq<string>)
  {
    && keyword.total == |JobKeywordSet(m, job)|
    && keyword.score == |matched|
    && (forall k :: k in matched <==> k in JobKeywordSet(m, job) && k in ResumeKeywordSet(m, resume))
    && (forall k :: k in missing <==> k in JobKeywordSet(m, job) && k !in ResumeKeywordSet(m, resume))
    && |matched| + |missing| == |JobKeywordSet(m, job)|
  }

  /**
   * The keyword half of `calculate_ats_score`: the job's keywords are split
   * into those the resume has and those it misses, and the keyword score
   * counts the former out of all of them.
   */
  method MatchKeywords(m: Matcher, resume: string, job: string) returns (keyword: MatchScore, matched: seq<string>, missing: seq<string>)
    ensures KeywordSplit(m, resume, job, keyword, matched, missing)
  {
    var jobKeywords := ExtractJobKeywords(m, job);
    var resumeKeywords := ExtractResumeKeywords(m, resume);
    keyword := KeywordMatch(jobKeywords, resumeKeywords);
    missing := FindMissing(jobKeywords, resumeKeywords);
    matched := FindMatched(jobKeywords, resumeKeywords);
    MatchedMissingPartition(jobKeywords, resumeKeywords);
    NoDupsCard(jobKeywords, JobKeywordSet(m, job));
  }

  /** The six category results `calculate_ats_score` computes before weighing them. */
  datatype Categories = Categories(
    keyword: MatchScore,
    matched: seq<string>,
    missing: seq<string>,
    technical: MatchScore,
    softSkills: MatchScore,
    experience: ExperienceScore,
    education: EducationScore,
    actionVerbs: VerbScore)

  /** The first half of `calculate_ats_score`: every category scored on its own. */
  method ScoreCategories(m: Matcher, resume: string, job: string) returns (c: Categories)
    ensures KeywordSplit(m, resume, job, c.keyword, c.matched, c.missing)
    ensures c.technical == TechnicalMatch(m, resume, job) && c.softSkills == SoftSkillsMatch(m, resume, job)
    ensures c.experience == ExperienceMatch(resume, job) && c.education == EducationMatch(resume, job)
    ensures c.actionVerbs == ActionVerbsScore(m, resume)
  {
    var keyword, matched, missing := MatchKeywords(m, resume, job);
    var technical := TechnicalMatch(m, resume, job);
    var soft := SoftSkillsMatch(m, resume, job);
    var experience := CalculateExperienceMatch(resume, job);
    var education := CalculateEducationMatch(resume, job);
    var verbs := ActionVerbsScore(m, resume);
    c := Categories(keyword, matched, missing, technical, soft, experience, education, verbs);
  }

  /** `calculate_ats_score`: every category, the weighted overall score, the keyword split, suggestions and labels. */
  method CalculateAtsScore(m: Matcher, resume: string, job: string) returns (r: AtsReport)
    ensures r.overall == OverallFor(CategoryScores(r.keyword.score, r.technical.score, r.softSkills.score,
                                                   r.experience.score, r.education.score, r.actionVerbs.score))
    ensures KeywordSplit(m, resume, job, r.keyword, r.matched, r.missing)
    ensures r.technical == TechnicalMatch(m, resume, job) && r.softSkills == SoftSkillsMatch(m, resume, job)
    ensures r.experience == ExperienceMatch(resume, job) && r.education == EducationMatch(resume, job)
    ensures r.actionVerbs == ActionVerbsScore(m, resume)
    ensures r.suggestions == Suggestions(m, r.overall, r.missing, resume)
    ensures r.analysis == GenerateAnalysis(r.overall, r.keyword, r.technical)
  {
    var c := ScoreCategories(m, resume, job);
    var overall := CalculateOverallScore(CategoryScores(c.keyword.score, c.technical.score, c.softSkills.score,
                                                        c.experience.score, c.education.score, c.actionVerbs.score));
    var suggestions := GenerateSuggestions(m, overall, c.missing, resume, job);
    r := AtsReport(overall, c.keyword, c.technical, c.softSkills, c.experience, c.education, c.actionVerbs,
                   c.missing, suggestions, c.matched, GenerateAnalysis(overall, c.keyword, c.technical));
  }
}
