/**
 * The resume transformation route (backend/routes/transform.py): its own
 * copies of the tone instructions, the prompt, the job keyword list, the
 * rule-based fallback text and the improvements list, and the outcome of a
 * generation request. The HTTP call to the model service is an abstract
 * outcome.
 */
module Transform {
  import opened Seqs
  import opened Text
  import AiEngine

  // ---------------------------------------------------------------------
  // construct_optimization_prompt

  const ProfessionalTone := "Use a formal, corporate tone with traditional business language."
  const TechTone := "Use modern, technical language with industry-specific terminology and focus on technical achievements."
  const CreativeTone := "Use innovative, dynamic language that showcases creativity and forward-thinking approach."

  /** `tone_instructions.get(tone, tone_instructions["professional"])` */
  function ToneInstruction(tone: string): (r: string)
    ensures r == TechTone <==> tone == "tech"
    ensures r == CreativeTone <==> tone == "creative"
    ensures r == ProfessionalTone <==> tone != "tech" && tone != "creative"
  {
    if tone == "professional" then ProfessionalTone
    else if tone == "tech" then TechTone
    else if tone == "creative" then CreativeTone
    else ProfessionalTone
  }

  /** The prompt: the route's template with the tone's instruction in its slot. */
  function Prompt(cv: string, job: string, tone: string): string
  {
    Template(ToneInstruction(tone), cv, job, tone)
  }

  /**
   * The route's template, with the instruction, the job description, the
   * resume and the tone name in its four slots. Its fixed wording is
   * abbreviated to the headings that frame the slots.
   */
  function Template(instruction: string, cv: string, job: string, tone: string): string
  {
    "TONE: " + instruction + "\n\nJOB DESCRIPTION:\n" + job
    + "\n\nORIGINAL RESUME:\n" + cv + "\n\n5. Match the tone specified: " + tone + "\n"
  }

  /** Whatever the instruction, the filled template carries it and both input texts. */
  lemma PromptHoldsInputs(instruction: string, cv: string, job: string, tone: string)
    ensures var p := Template(instruction, cv, job, tone);
            Contains(p, instruction) && Contains(p, job) && Contains(p, cv)
  {
    var s1 := "TONE: " + instruction;
    var s2 := s1 + "\n\nJOB DESCRIPTION:\n";
    var s3 := s2 + job;
    var s4 := s3 + "\n\nORIGINAL RESUME:\n";
    var s5 := s4 + cv;
    var s6 := s5 + "\n\n5. Match the tone specified: ";
    var s7 := s6 + tone;
    ContainsAppended("TONE: ", instruction);
    ContainsExtended(s1, "\n\nJOB DESCRIPTION:\n", instruction);
    ContainsAppended(s2, job);
    ContainsExtended(s2, job, instruction);
    ContainsExtended(s3, "\n\nORIGINAL RESUME:\n", instruction);
    ContainsExtended(s3, "\n\nORIGINAL RESUME:\n", job);
    ContainsAppended(s4, cv);
    ContainsExtended(s4, cv, instruction);
    ContainsExtended(s4, cv, job);
    forall x | x in [instruction, job, cv]
      ensures Contains(Template(instruction, cv, job, tone), x)
    {
      ContainsExtended(s5, "\n\n5. Match the tone specified: ", x);
      ContainsExtended(s6, tone, x);
      ContainsExtended(s7, "\n", x);
    }
  }

  // ---------------------------------------------------------------------
  // extract_keywords_from_job

  const SoftSkills: seq<string> := [
    "leadership", "communication", "teamwork", "problem solving", "project management",
    "collaboration", "time management", "adaptability", "creativity", "analytical"
  ]

  /** `tech_skills + soft_skills`: the fourteen technical terms, then the ten soft ones. */
  const JobTerms: seq<string> := AiEngine.TechSkills + SoftSkills

  /** The terms occurring in the lower-cased job text, in list order. */
  function JobKeywords(job: string): (r: seq<string>)
    ensures IsSubseq(r, JobTerms)
    ensures forall t :: t in r <==> t in JobTerms && Contains(Lower(job), t)
  {
    Occurring(JobTerms, Lower(job))
  }

  /**
   * The route has no test for an empty job text, yet an empty text yields no
   * keyword all the same: no term is empty, and only the empty text occurs
   * in the empty text.
   */
  lemma EmptyJobNoKeywords()
    ensures JobKeywords("") == []
  {
    assert |AiEngine.TechSkills| == 14 && |SoftSkills| == 10;
    assert forall t :: t in JobTerms ==> |t| > 0;
    assert Lower("") == "";
    OccurringNone(JobTerms, "");
  }

  /** `extract_keywords_from_job`: one pass over the combined list. */
  method ExtractKeywordsFromJob(job: string) returns (found: seq<string>)
    ensures found == JobKeywords(job)
  {
    var terms := AiEngine.TechSkills + SoftSkills;
    var lower := Lower(job);
    found := [];
    for i := 0 to |terms|
      invariant found == Occurring(terms[..i], lower)
    {
      var skill := terms[i];
      OccurringAppend(terms[..i], skill, lower);
      TakeOneMore(terms, i);
      if Contains(lower, skill) {
        found := found + [skill];
      }
    }
    assert terms[..|terms|] == terms;
  }

  // ---------------------------------------------------------------------
  // fallback_optimization

  /** The bullet the route writes as source bytes: the UTF-8 bytes of "•" read back as three characters. */
  const MisencodedBullet := "\U{E2}\U{20AC}\U{A2} "

  /** The skill lines as written: the misencoded bullet before each title-cased keyword. */
  function AsWrittenBullets(keywords: seq<string>): (r: seq<string>)
    ensures |r| == |keywords|
    ensures forall i :: 0 <= i < |r| ==> r[i] == MisencodedBullet + Title(keywords[i])
  {
    seq(|keywords|, i requires 0 <= i < |keywords| => MisencodedBullet + Title(keywords[i]))
  }

  /** The lines of the fallback text as written: the same skeleton, with the misencoded bullets. */
  function AsWrittenFallbackLines(keywords: seq<string>): seq<string>
  {
    AiEngine.FallbackHead + AsWrittenBullets(Prefix(keywords, 10)) + AiEngine.FallbackTail
  }

  /**
   * As written, every skill line differs from the intended "• " bullet line:
   * for a job text naming one term, the text shows "â€¢ Python" where
   * "• Python" is meant.
   */
  lemma MisencodedBulletsDiffer(keywords: seq<string>)
    requires keywords != []
    ensures AsWrittenFallbackLines(keywords)[10] != AiEngine.FallbackLines(keywords)[10]
    ensures AsWrittenFallbackLines(keywords)[10][0] == '\U{E2}'
    ensures AiEngine.FallbackLines(keywords)[10][0] == '•'
  {
    AiEngine.FallbackLayout(keywords);
    var top := Prefix(keywords, 10);
    var written := AsWrittenFallbackLines(keywords);
    assert |AiEngine.FallbackHead| == 10;
    assert written[10] == AsWrittenBullets(top)[0];
    assert written[10] == MisencodedBullet + Title(keywords[0]);
    assert written[10][0] == MisencodedBullet[0];
  }

  /**
   * The text as written and the corrected one share their skeleton: the same
   * number of lines, equal everywhere except the skill lines, which differ
   * only in their bullet.
   */
  lemma AsWrittenSameSkeleton(keywords: seq<string>)
    ensures var written := AsWrittenFallbackLines(keywords);
            var meant := AiEngine.FallbackLines(keywords);
            var n := |Prefix(keywords, 10)|;
            && |written| == |meant| == 13 + n
            && (forall i :: 0 <= i < |written| && !(10 <= i < 10 + n) ==> written[i] == meant[i])
            && (forall i :: 0 <= i < n ==> written[10 + i] == MisencodedBullet + Title(keywords[i])
                                           && meant[10 + i] == "• " + Title(keywords[i]))
  {
    var top := Prefix(keywords, 10);
    var n := |top|;
    var written := AsWrittenFallbackLines(keywords);
    var meant := AiEngine.FallbackLines(keywords);
    assert |AiEngine.FallbackHead| == 10 && |AiEngine.FallbackTail| == 3;
    forall i | 0 <= i < |written| && !(10 <= i < 10 + n)
      ensures written[i] == meant[i]
    {
      if i < 10 {
        assert written[i] == AiEngine.FallbackHead[i] == meant[i];
      } else {
        assert written[i] == AiEngine.FallbackTail[i - 10 - n] == meant[i];
      }
    }
    forall i | 0 <= i < n
      ensures written[10 + i] == MisencodedBullet + Title(keywords[i]) && meant[10 + i] == "• " + Title(keywords[i])
    {
      assert written[10 + i] == AsWrittenBullets(top)[i];
      assert meant[10 + i] == AiEngine.Bullets(top)[i];
    }
  }

  /**
   * `fallback_optimization`, with the bullet corrected to "• ": the same
   * document as the engine's fallback, for the route's own keyword list.
   */
  method FallbackOptimization(cv: string, job: string, tone: string) returns (text: string)
    ensures text == Join(AiEngine.FallbackLines(JobKeywords(job)), "\n")
  {
    var keywords := ExtractKeywordsFromJob(job);
    text := AiEngine.FallbackDocument(keywords);
  }

  // ---------------------------------------------------------------------
  // extract_improvements

  /** `extract_improvements`: the same five tests and messages as the engine's. */
  method ExtractImprovements(original: string, optimized: string) returns (improvements: seq<string>)
    ensures improvements == AiEngine.Improvements(original, optimized)
    ensures 1 <= |improvements| <= 5
  {
    var moreWords := AiEngine.GrewFifth(original, optimized);
    var moreNumbers := AiEngine.NumberCount(optimized) > AiEngine.NumberCount(original);
    var moreVerbs := AiEngine.VerbCount(optimized) > AiEngine.VerbCount(original);
    var summary := Contains(optimized, AiEngine.SummaryHeading);
    var skills := Contains(optimized, AiEngine.SkillsHeading);
    improvements := AiEngine.CollectImprovements(moreWords, moreNumbers, moreVerbs, summary, skills);
    AiEngine.ImprovementsListed(moreWords, moreNumbers, moreVerbs, summary, skills);
  }

  // ---------------------------------------------------------------------
  // generate_ats_resume

  /**
   * What the generation request does: the connection fails, another step
   * fails with a message (a status other than 200, a time-out, a reply that
   * cannot be decoded), or the service answers with a text, possibly empty.
   */
  datatype Outcome = ConnectionError | Failed(message: string) | Responded(text: string)

  datatype Result<T> = Ok(value: T) | Err(message: string)

  /** The prefix every failure message is given by the handler. */
  const FailurePrefix := "AI generation failed: "

  /** The failure an empty reply is turned into. */
  const NoResponse := "No response from AI model"

  /**
   * `generate_ats_resume`: the reply when it is non-empty; the fallback text
   * when the connection fails; otherwise it raises "AI generation failed: "
   * with the failure's message, an empty reply being the failure
   * "No response from AI model".
   */
  function GenerateAtsResume(cv: string, job: string, tone: string, outcome: Outcome): (r: Result<string>)
    ensures outcome.ConnectionError? ==> r == Ok(Join(AiEngine.FallbackLines(JobKeywords(job)), "\n"))
    ensures r.Ok? ==> outcome.ConnectionError? || (outcome.Responded? && r.value == outcome.text && r.value != [])
    ensures r.Err? <==> outcome.Failed? || outcome == Responded([])
    ensures outcome.Failed? ==> r == Err(FailurePrefix + outcome.message)
    ensures outcome == Responded([]) ==> r == Err(FailurePrefix + NoResponse)
  {
    match outcome
    case ConnectionError => Ok(Join(AiEngine.FallbackLines(JobKeywords(job)), "\n"))
    case Failed(message) => Err(FailurePrefix + message)
    case Responded(text) =>
      if text == [] then Err(FailurePrefix + NoResponse) else Ok(text)
  }
}
