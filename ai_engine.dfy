/**
 * `AIEngine` (backend/utils/ai_engine.py): the rule-based side of resume
 * optimisation. The engine's fields (service URL, model name, timeout) are
 * read from the environment once and never change, so the model name is a
 * parameter; the HTTP calls to the model service are an abstract outcome.
 */
module AiEngine {
  import opened Seqs
  import opened Text
  import opened Patterns

  // ---------------------------------------------------------------------
  // construct_optimization_prompt: the tone instruction

  const ProfessionalTone := "Use a formal, corporate tone with traditional business language and focus on achievements and responsibilities."
  const TechTone := "Use modern, technical language with industry-specific terminology, focus on technical achievements, and emphasize innovation and problem-solving."
  const CreativeTone := "Use innovative, dynamic language that showcases creativity, forward-thinking approach, and artistic sensibility while maintaining professionalism."

  /** `tone_instructions.get(tone, tone_instructions["professional"])` */
  function ToneInstruction(tone: string): (r: string)
    ensures r == TechTone <==> tone == "tech"
    ensures r == CreativeTone <==> tone == "creative"
    ensures r == ProfessionalTone <==> tone != "tech" && tone != "creative"
  {
    if tone == "professional" then ProfessionalTone
    else if tone == "tech" then TechTone
    else if tone == "creative" then CreativeTone
    else ProfessionalTone
  }

  /** The prompt: the fixed template with the tone's instruction in its slot. */
  function Prompt(resume: string, job: string, tone: string): string
  {
    Template(ToneInstruction(tone), resume, job, tone)
  }

  /**
   * The template, with the instruction, the job description, the resume and
   * the tone name in its four slots. Its fixed wording is abbreviated to the
   * headings that frame the slots.
   */
  function Template(instruction: string, resume: string, job: string, tone: string): string
  {
    "TONE REQUIREMENT: " + instruction + "\n\nJOB DESCRIPTION:\n" + job
    + "\n\nORIGINAL RESUME:\n" + resume + "\n\n5. Match the tone specified: " + tone + "\n"
  }

  /** Whatever the instruction, the filled template carries it and both input texts. */
  lemma PromptHoldsInputs(instruction: string, resume: string, job: string, tone: string)
    ensures var p := Template(instruction, resume, job, tone);
            Contains(p, instruction) && Contains(p, job) && Contains(p, resume)
  {
    var s1 := "TONE REQUIREMENT: " + instruction;
    var s2 := s1 + "\n\nJOB DESCRIPTION:\n";
    var s3 := s2 + job;
    var s4 := s3 + "\n\nORIGINAL RESUME:\n";
    var s5 := s4 + resume;
    var s6 := s5 + "\n\n5. Match the tone specified: ";
    var s7 := s6 + tone;
    ContainsAppended("TONE REQUIREMENT: ", instruction);
    ContainsExtended(s1, "\n\nJOB DESCRIPTION:\n", instruction);
    ContainsAppended(s2, job);
    ContainsExtended(s2, job, instruction);
    ContainsExtended(s3, "\n\nORIGINAL RESUME:\n", instruction);
    ContainsExtended(s3, "\n\nORIGINAL RESUME:\n", job);
    ContainsAppended(s4, resume);
    ContainsExtended(s4, resume, instruction);
    ContainsExtended(s4, resume, job);
    forall x | x in [instruction, job, resume]
      ensures Contains(Template(instruction, resume, job, tone), x)
    {
      ContainsExtended(s5, "\n\n5. Match the tone specified: ", x);
      ContainsExtended(s6, tone, x);
      ContainsExtended(s7, "\n", x);
    }
  }

  // ---------------------------------------------------------------------
  // Heuristics shared by the score and the improvements

  const ActionVerbs: seq<string> := ["led", "developed", "implemented", "increased", "improved", "managed", "created", "designed"]
  const SummaryHeading := "**PROFESSIONAL SUMMARY**"
  const SkillsHeading := "**KEY SKILLS**"

  /** `len(re.findall(r'\d+', s))` */
  function NumberCount(s: string): nat
  {
    DigitRunCount(s, 0)
  }

  /** `sum(1 for verb in action_verbs if verb in s.lower())` */
  function VerbCount(s: string): nat
  {
    CountContained(ActionVerbs, Lower(s))
  }

  /** `len(optimized.split()) > len(original.split()) * 1.1`, compared exactly by cross-multiplication. */
  predicate GrewTenth(original: string, optimized: string)
  {
    |Words(optimized)| * 10 > |Words(original)| * 11
  }

  /** `len(optimized.split()) > len(original.split()) * 1.2`, compared exactly by cross-multiplication. */
  predicate GrewFifth(original: string, optimized: string)
  {
    |Words(optimized)| * 5 > |Words(original)| * 6
  }

  // ---------------------------------------------------------------------
  // calculate_optimization_score

  /** The points a test adds when it holds. */
  function Bonus(holds: bool, points: nat): nat
  {
    if holds then points else 0
  }

  /**
   * The optimisation score: 50, plus 10 for a word count above 1.1 times the
   * original's, 15 for more digit runs, 10 for more action verbs, 10 for the
   * summary heading and 5 for the skills heading, capped at 100.
   */
  function OptimizationScore(original: string, optimized: string): nat
  {
    ScoreFrom(GrewTenth(original, optimized), NumberCount(optimized) > NumberCount(original),
      VerbCount(optimized) > VerbCount(original), Contains(optimized, SummaryHeading), Contains(optimized, SkillsHeading))
  }

  /** The score for the outcomes of the five tests. */
  function ScoreFrom(grew: bool, numbers: bool, verbs: bool, summary: bool, skills: bool): (r: nat)
    ensures 50 <= r <= 100
  {
    var s := 50 + Bonus(grew, 10) + Bonus(numbers, 15) + Bonus(verbs, 10) + Bonus(summary, 10) + Bonus(skills, 5);
    if s < 100 then s else 100
  }

  /**
   * The score lies in [50, 100], the cap never bites; it is 50 exactly when
   * no test holds and 100 exactly when all five do.
   */
  lemma OptimizationScoreRange(original: string, optimized: string)
    ensures var r := OptimizationScore(original, optimized);
            var grew, numbers, verbs, summary, skills :=
              GrewTenth(original, optimized), NumberCount(optimized) > NumberCount(original),
              VerbCount(optimized) > VerbCount(original), Contains(optimized, SummaryHeading),
              Contains(optimized, SkillsHeading);
            && 50 <= r <= 100
            && r == 50 + Bonus(grew, 10) + Bonus(numbers, 15) + Bonus(verbs, 10) + Bonus(summary, 10) + Bonus(skills, 5)
            && (r == 50 <==> !grew && !numbers && !verbs && !summary && !skills)
            && (r == 100 <==> grew && numbers && verbs && summary && skills)
  {
  }

  /** `calculate_optimization_score`: the score starts at 50 and each test that holds adds its points. */
  method CalculateOptimizationScore(original: string, optimized: string) returns (score: nat)
    ensures score == OptimizationScore(original, optimized)
  {
    var grew := GrewTenth(original, optimized);
    var numbers := NumberCount(optimized) > NumberCount(original);
    var verbs := VerbCount(optimized) > VerbCount(original);
    var summary := Contains(optimized, SummaryHeading);
    var skills := Contains(optimized, SkillsHeading);
    score := TallyScore(grew, numbers, verbs, summary, skills);
  }

  /** The body of `calculate_optimization_score` once the five tests are decided. */
  method TallyScore(grew: bool, numbers: bool, verbs: bool, summary: bool, skills: bool) returns (score: nat)
    ensures score == ScoreFrom(grew, numbers, verbs, summary, skills)
  {
    score := 50;
    if grew {
      score := score + 10;
    }
    if numbers {
      score := score + 15;
    }
    if verbs {
      score := score + 10;
    }
    if summary {
      score := score + 10;
    }
    if skills {
      score := score + 5;
    }
    score := if score < 100 then score else 100;
  }

  // ---------------------------------------------------------------------
  // extract_improvements

  const KeywordsImproved := "Enhanced content with relevant keywords"
  const NumbersImproved := "Added quantified achievements and metrics"
  const VerbsImproved := "Enhanced with strong action verbs"
  const SummaryImproved := "Added compelling professional summary"
  const SkillsImproved := "Organized skills section for better visibility"
  const GeneralImprovement := "General ATS optimization applied"

  /** The five specific messages, in the order their tests run. */
  const ImprovementMessages: seq<string> := [KeywordsImproved, NumbersImproved, VerbsImproved, SummaryImproved, SkillsImproved]

  /** The improvement messages for the five tests, as `extract_improvements` decides them. */
  function Improvements(original: string, optimized: string): seq<string>
  {
    ImprovementsFrom(GrewFifth(original, optimized), NumberCount(optimized) > NumberCount(original),
      VerbCount(optimized) > VerbCount(original), Contains(optimized, SummaryHeading), Contains(optimized, SkillsHeading))
  }

  /** The messages of the tests that hold, in test order; the general message alone when none does. */
  function ImprovementsFrom(words: bool, numbers: bool, verbs: bool, summary: bool, skills: bool): seq<string>
  {
    var found := Select(ImprovementMessages, [words, numbers, verbs, summary, skills]);
    if found == [] then [GeneralImprovement] else found
  }

  /** The six messages are distinct (their lengths differ). */
  lemma MessagesDistinct()
    ensures NoDups(ImprovementMessages)
    ensures GeneralImprovement !in ImprovementMessages
  {
    assert |KeywordsImproved| == 39 && |NumbersImproved| == 41 && |VerbsImproved| == 33;
    assert |SummaryImproved| == 37 && |SkillsImproved| == 46 && |GeneralImprovement| == 32;
  }

  /**
   * Each specific message is listed exactly when its test holds; the general
   * message stands alone exactly when no test holds; at most five messages.
   */
  lemma ImprovementsListed(words: bool, numbers: bool, verbs: bool, summary: bool, skills: bool)
    ensures var r := ImprovementsFrom(words, numbers, verbs, summary, skills);
            && 1 <= |r| <= 5
            && (forall i :: 0 <= i < 5 ==> (ImprovementMessages[i] in r <==> [words, numbers, verbs, summary, skills][i]))
            && (r == [GeneralImprovement] <==> !words && !numbers && !verbs && !summary && !skills)
  {
    var flags := [words, numbers, verbs, summary, skills];
    var found := Select(ImprovementMessages, flags);
    MessagesDistinct();
    forall i | 0 <= i < 5
      ensures ImprovementMessages[i] in found <==> flags[i]
    {
      SelectMember(ImprovementMessages, flags, i);
    }
    if found != [] {
      assert found[0] in ImprovementMessages;
    } else {
      assert !flags[0] && !flags[1] && !flags[2] && !flags[3] && !flags[4];
    }
  }

  /** `extract_improvements` */
  method ExtractImprovements(original: string, optimized: string) returns (improvements: seq<string>)
    ensures improvements == Improvements(original, optimized)
  {
    var moreWords := |Words(optimized)| * 5 > |Words(original)| * 6;
    var moreNumbers := NumberCount(optimized) > NumberCount(original);
    var moreVerbs := VerbCount(optimized) > VerbCount(original);
    var summary := Contains(optimized, SummaryHeading);
    var skills := Contains(optimized, SkillsHeading);
    improvements := CollectImprovements(moreWords, moreNumbers, moreVerbs, summary, skills);
  }

  /** The body of `extract_improvements` once the five tests are decided: each test that holds appends its message. */
  method CollectImprovements(words: bool, numbers: bool, verbs: bool, summary: bool, skills: bool)
    returns (improvements: seq<string>)
    ensures improvements == ImprovementsFrom(words, numbers, verbs, summary, skills)
  {
    improvements := [];
    if words {
      improvements := improvements + [KeywordsImproved];
    }
    ghost var listed := Rule(words, KeywordsImproved);
    assert improvements == listed;
    if numbers {
      improvements := improvements + [NumbersImproved];
    }
    listed := listed + Rule(numbers, NumbersImproved);
    assert improvements == listed;
    if verbs {
      improvements := improvements + [VerbsImproved];
    }
    listed := listed + Rule(verbs, VerbsImproved);
    assert improvements == listed;
    if summary {
      improvements := improvements + [SummaryImproved];
    }
    listed := listed + Rule(summary, SummaryImproved);
    assert improvements == listed;
    if skills {
      improvements := improvements + [SkillsImproved];
    }
    listed := listed + Rule(skills, SkillsImproved);
    assert improvements == listed;
    ghost var flags := [words, numbers, verbs, summary, skills];
    SelectFive(ImprovementMessages, flags);
    assert improvements == Select(ImprovementMessages, flags);
    FromSelected(words, numbers, verbs, summary, skills, improvements);
    if improvements == [] {
      improvements := [GeneralImprovement];
    }
  }

  lemma FromSelected(words: bool, numbers: bool, verbs: bool, summary: bool, skills: bool, found: seq<string>)
    requires found == Select(ImprovementMessages, [words, numbers, verbs, summary, skills])
    ensures ImprovementsFrom(words, numbers, verbs, summary, skills) == if found == [] then [GeneralImprovement] else found
  {
  }

  // ---------------------------------------------------------------------
  // extract_keywords_from_job

  const TechSkills: seq<string> := [
    "javascript", "python", "java", "react", "node.js", "sql", "aws", "docker",
    "kubernetes", "git", "agile", "scrum", "machine learning", "data analysis"
  ]

  /**
   * The vocabulary terms occurring in the lower-cased job text, in vocabulary
   * order; none for an empty job text.
   */
  function JobKeywords(job: string): (r: seq<string>)
    ensures job == [] ==> r == []
    ensures IsSubseq(r, TechSkills)
    ensures forall t :: t in r <==> job != [] && t in TechSkills && Contains(Lower(job), t)
  {
    if job == [] then [] else Occurring(TechSkills, Lower(job))
  }

  /** `extract_keywords_from_job` */
  method ExtractKeywordsFromJob(job: string) returns (found: seq<string>)
    ensures found == JobKeywords(job)
  {
    if job == [] {
      return [];
    }
    var lower := Lower(job);
    found := [];
    for i := 0 to |TechSkills|
      invariant found == Occurring(TechSkills[..i], lower)
    {
      var skill := TechSkills[i];
      OccurringAppend(TechSkills[..i], skill, lower);
      assert TechSkills[..i + 1] == TechSkills[..i] + [skill];
      if Contains(lower, skill) {
        found := found + [skill];
      }
    }
    assert TechSkills[..|TechSkills|] == TechSkills;
  }

  // ---------------------------------------------------------------------
  // fallback_optimization

  datatype Optimization = Optimization(
    success: bool, optimizedResume: string, improvements: seq<string>, optimizationScore: nat,
    toneApplied: string, aiModel: string, optimizationMethod: string)

  const ContactHeading := "**CONTACT INFORMATION**"
  const ExperienceHeading := "**PROFESSIONAL EXPERIENCE**"
  const EducationHeading := "**EDUCATION**"

  /** The lines before the skill bullets, in the order they are appended. */
  const FallbackHead: seq<string> :=
    [ContactHeading] + ["[Add your contact details here]"] + [""]
    + [SummaryHeading] + ["Results-driven professional with expertise in key areas relevant to this position."] + [""]
    + [ExperienceHeading] + ["[Your work experience with quantified achievements]"] + [""]
    + [SkillsHeading]

  /** The lines after the skill bullets, in the order they are appended. */
  const FallbackTail: seq<string> := [""] + [EducationHeading] + ["[Your educational background]"]

  /** One bullet line per keyword, title-cased. */
  function Bullets(keywords: seq<string>): (r: seq<string>)
    ensures |r| == |keywords|
    ensures forall i :: 0 <= i < |r| ==> r[i] == "• " + Title(keywords[i])
  {
    seq(|keywords|, i requires 0 <= i < |keywords| => "• " + Title(keywords[i]))
  }

  /** Bulleting one more keyword appends its bullet. */
  lemma BulletsTakeOneMore(keywords: seq<string>, i: nat)
    requires i < |keywords|
    ensures Bullets(keywords[..i + 1]) == Bullets(keywords[..i]) + ["• " + Title(keywords[i])]
  {
  }

  /** The lines of the fallback resume for the given keywords: at most ten bullets between the fixed parts. */
  function FallbackLines(keywords: seq<string>): seq<string>
  {
    FallbackHead + Bullets(Prefix(keywords, 10)) + FallbackTail
  }

  /** The `method` tags of the two kinds of result, and what the fallback reports. */
  const ModelMethod := "ai_optimization"
  const RuleBasedMethod := "rule_based_optimization"
  const FallbackModel := "fallback"
  const FallbackImprovements: seq<string> := ["Basic ATS optimization applied", "Keywords added from job description"]

  function FallbackResult(job: string, tone: string): Optimization
  {
    Optimization(true, Join(FallbackLines(JobKeywords(job)), "\n"),
      FallbackImprovements, 60, tone, FallbackModel, RuleBasedMethod)
  }

  /**
   * The five headings stand in order at fixed lines; between the skills
   * heading and the blank line before the education heading come exactly
   * `min(10, |keywords|)` bullets, the i-th naming the i-th keyword.
   */
  lemma FallbackLayout(keywords: seq<string>)
    ensures var n := if |keywords| < 10 then |keywords| else 10;
            var lines := FallbackLines(keywords);
            && |lines| == 13 + n
            && lines[0] == ContactHeading && lines[3] == SummaryHeading && lines[6] == ExperienceHeading
            && lines[9] == SkillsHeading && lines[10 + n] == "" && lines[11 + n] == EducationHeading
            && (forall i :: 0 <= i < n ==> lines[10 + i] == "• " + Title(keywords[i]))
  {
    var top := Prefix(keywords, 10);
    var bullets := Bullets(top);
    assert |FallbackHead| == 10 && |FallbackTail| == 3;
    assert FallbackHead[0] == ContactHeading && FallbackHead[3] == SummaryHeading;
    assert FallbackHead[6] == ExperienceHeading && FallbackHead[9] == SkillsHeading;
    assert FallbackTail[0] == "" && FallbackTail[1] == EducationHeading;
    var lines := FallbackHead + bullets + FallbackTail;
    forall i | 0 <= i < |top|
      ensures lines[10 + i] == "• " + Title(keywords[i])
    {
      assert lines[10 + i] == bullets[i];
    }
  }

  /** Each bullet of the fallback document names a vocabulary term occurring in the job text, in vocabulary order. */
  lemma FallbackBulletsFromJob(job: string)
    ensures var top := Prefix(JobKeywords(job), 10);
            && IsSubseq(top, TechSkills)
            && forall i :: 0 <= i < |top| ==> top[i] in TechSkills && Contains(Lower(job), top[i])
  {
    var keywords := JobKeywords(job);
    var top := Prefix(keywords, 10);
    PrefixSubseq(keywords, 10, TechSkills);
    forall i | 0 <= i < |top|
      ensures top[i] in TechSkills && Contains(Lower(job), top[i])
    {
      assert top[i] in keywords;
    }
  }

  /** `fallback_optimization`: the document for the job's keywords, with the fixed improvements and a score of 60. */
  method FallbackOptimization(resume: string, job: string, tone: string) returns (r: Optimization)
    ensures r == FallbackResult(job, tone)
  {
    var keywords := ExtractKeywordsFromJob(job);
    var text := FallbackDocument(keywords);
    r := Optimization(true, text,
      FallbackImprovements, 60, tone, FallbackModel, RuleBasedMethod);
  }

  /** The document `fallback_optimization` builds: the fixed lines, a bullet for each of the first ten keywords, joined by newlines. */
  method FallbackDocument(keywords: seq<string>) returns (text: string)
    ensures text == Join(FallbackLines(keywords), "\n")
  {
    var sections: seq<string> := [ContactHeading];
    sections := sections + ["[Add your contact details here]"];
    sections := sections + [""];
    sections := sections + [SummaryHeading];
    sections := sections + ["Results-driven professional with expertise in key areas relevant to this position."];
    sections := sections + [""];
    sections := sections + [ExperienceHeading];
    sections := sections + ["[Your work experience with quantified achievements]"];
    sections := sections + [""];
    sections := sections + [SkillsHeading];
    assert sections == FallbackHead;
    var top := Prefix(keywords, 10);
    for i := 0 to |top|
      invariant sections == FallbackHead + Bullets(top[..i])
    {
      BulletsTakeOneMore(top, i);
      AppendAssoc(FallbackHead, Bullets(top[..i]), ["• " + Title(top[i])]);
      sections := sections + ["• " + Title(top[i])];
    }
    assert top[..|top|] == top;
    sections := sections + [""];
    sections := sections + [EducationHeading];
    sections := sections + ["[Your educational background]"];
    AppendAssoc(FallbackHead + Bullets(top), [""] + [EducationHeading], ["[Your educational background]"]);
    AppendAssoc(FallbackHead + Bullets(top), [""], [EducationHeading]);
    text := Join(sections, "\n");
  }

  // ---------------------------------------------------------------------
  // optimize_resume

  /**
   * What the model service does for one request: it is not reachable at the
   * availability probe, the generation call fails (connection error, time-out,
   * a status other than 200, a reply that cannot be decoded), or it answers
   * with a text, possibly empty.
   */
  datatype ServiceOutcome = Unavailable | CallFailed | Responded(text: string)

  /** Whether the service produced a usable text: a non-empty reply. */
  predicate Usable(outcome: ServiceOutcome)
  {
    outcome.Responded? && outcome.text != []
  }

  /**
   * `optimize_resume`: the service's text with its improvements and score, or
   * the rule-based fallback when the service is unavailable or any step
   * raises (an empty reply raises in `generate_optimized_resume`).
   */
  function OptimizeResume(resume: string, job: string, tone: string, model: string, outcome: ServiceOutcome): (r: Optimization)
    ensures r == FallbackResult(job, tone) <==> !Usable(outcome)
    ensures r.optimizationMethod == ModelMethod <==> Usable(outcome)
  {
    if Usable(outcome) then ModelResult(resume, outcome.text, tone, model) else FallbackResult(job, tone)
  }

  /** The result for a usable text: the text itself, its improvements and its score, which lies in [50, 100]. */
  function ModelResult(resume: string, text: string, tone: string, model: string): (r: Optimization)
    ensures r.success && r.optimizedResume == text && r.toneApplied == tone && r.aiModel == model
    ensures r.optimizationMethod == ModelMethod
    ensures 50 <= r.optimizationScore <= 100
  {
    Optimization(true, text, Improvements(resume, text), OptimizationScore(resume, text), tone, model, ModelMethod)
  }

  /**
   * The result is exactly `fallback_optimization`'s when the service gave no
   * usable text, and otherwise the service's text with its own improvements
   * and score.
   */
  lemma FallbackIffUnusable(resume: string, job: string, tone: string, model: string, outcome: ServiceOutcome)
    ensures OptimizeResume(resume, job, tone, model, outcome).optimizationMethod == RuleBasedMethod <==> !Usable(outcome)
    ensures OptimizeResume(resume, job, tone, model, outcome) == FallbackResult(job, tone) <==> !Usable(outcome)
    ensures Usable(outcome) ==> OptimizeResume(resume, job, tone, model, outcome) == ModelResult(resume, outcome.text, tone, model)
  {
  }
}
