# Resume ATS core, modelled in Dafny

This project models the text-processing core of a resume optimisation
backend. The backend scores a resume against a job description the way an
applicant tracking system (ATS) would. It also cleans and structures resume
text, suggests improvements, builds a rule-based optimised resume when the
language model service is unavailable, and prepares resume data for a LaTeX
template. All of it is keyword heuristics over plain text. The Python code
writes several of them more than once, each copy a little different, and
each copy is modelled as its own code does it.

One Dafny module per source file, plus four shared modules:

- `ats_matcher.dfy`, module `AtsMatcher`: `ATSMatcher` in backend/utils/ats_matcher.py: keyword extraction, the six category scores, the weighted overall score, suggestions and analysis labels.
- `ats_score.dfy`, module `AtsRoute`: backend/routes/ats_score.py: the route's own keyword extraction, skills-section cut, compatibility score and suggestions.
- `text_cleaner.dfy`, module `TextCleaner`: `TextCleaner` in backend/utils/text_cleaner.py: cleaning, keywords, skills, experience level, education, watermarks, sections.
- `ai_engine.dfy`, module `AiEngine`: `AIEngine` in backend/utils/ai_engine.py: tone selection, optimisation score, improvements, the fallback resume, the fallback branching.
- `transform.dfy`, module `Transform`: backend/routes/transform.py: the route's copies of those, and the outcome branching of `generate_ats_resume`.
- `resume_parser.dfy`, module `ResumeParser`: `ResumeParser` in backend/utils/parser_pdf_docx.py: dispatch by extension, name, sections, skills, experience, education.
- `parse_route.dfy`, module `ParseRoute`: backend/routes/parse.py: the upload check, `clean_text`, `structure_resume_text`, `extract_job_requirements`.
- `export_route.dfy`, module `ExportRoute`: backend/routes/export.py: `prepare_resume_data`, `parse_experience_text`, `parse_skills_text`.
- `latex_renderer.dfy`, module `LatexRenderer`: backend/utils/latex_renderer.py: `prepare_template_data` and the three processors.
- `seqs.dfy`, module `Seqs`: filters, order-preserving selection, subsequences, `list(set(...))`.
- `text.dfy`, module `Text`: ASCII character classes, `lower`, `title`, `strip`, `split`, `join`, substring tests.
- `patterns.dfy`, module `Patterns`: hand-written scanners for the few regular expressions the core uses.
- `values.dfy`, module `PyValues`: the dynamic Python values of the request bodies the export code reads.

How the model is written:

- Loops that append or update variables are methods with loop invariants.
  Each is proved equal to a specification function, and the properties are
  lemmas about that function.
- A loop over lines is a state machine: a datatype for the loop variables,
  a step function for one line, and the scan as the steps over the lines.
  Well-formedness of the state is an invariant each step keeps.
- `list(set(xs))` gives a duplicate-free list in an order the source leaves
  open (`Seqs.ListSet`); contracts state only order-independent facts about it.
- Characters are ASCII for `lower`, `title`, `\w`, `\s` and `\d`. Other
  characters are neither word characters nor whitespace and have no case.
- Floating-point values are modelled as exact reals. The weights are
  hundredths. The 0.8, 0.6, 1.1 and 1.2 factors are cross-multiplications.
  Percentages are reals. Where the source truncates or rounds a float, the
  model truncates or rounds the exact value (see "Left out").
- The language model service is an abstract outcome passed in as a parameter.

## Model

| member | source | states |
|---|---|---|
| Text.Lower | backend/utils/ats_matcher.py:118 | `str.lower` on ASCII: same length, each character lower-cased |
| Text.Title | backend/utils/text_cleaner.py:148 | `str.title`: same length, each letter upper-cased after a non-letter and lower-cased after a letter |
| Text.TitleLower | backend/utils/text_cleaner.py:148 | title-casing never changes a text's lower-case form |
| Text.Occurring | backend/utils/ats_matcher.py:121 | the comprehension `[t for t in vocab if t in text]`: a subsequence of the vocabulary holding exactly the terms the text contains |
| Text.Strip | backend/utils/text_cleaner.py:49 | `str.strip`: never longer, no leading or trailing whitespace, no new characters |
| Text.StripIsCut | backend/utils/text_cleaner.py:49 | what `strip` removes is whitespace only: the text is a whitespace run, the stripped text, and a whitespace run |
| Text.StripAll | backend/utils/latex_renderer.py:198 | each piece stripped, one result per piece |
| Text.StripAllSnoc | backend/utils/text_cleaner.py:408 | stripping one more line appends its stripped form |
| Text.Split | backend/routes/export.py:173 | `str.split(sep)` and `re.split` on a character class: at least one piece, none holding a separator |
| Text.Lines | backend/utils/text_cleaner.py:346 | `text.split('\n')`: at least one line, none holding a newline |
| Text.JoinSplit | backend/utils/text_cleaner.py:346-356 | splitting on a character and joining with it gives the text back |
| Text.SplitJoin | backend/utils/text_cleaner.py:399 | joining pieces free of the separator and splitting again gives the pieces back |
| Text.SplitJoinSeps | backend/routes/export.py:209 | the same for a split on a class of separators that includes the joining one |
| Text.Words | backend/utils/text_cleaner.py:107 | `str.split()`: non-empty words without whitespace |
| Text.WordsChars | backend/utils/text_cleaner.py:107 | every character of every word comes from the text |
| Text.WordsOfWord | backend/utils/text_cleaner.py:107 | a non-empty text without whitespace is one word, itself |
| Text.WordsAtSpace | backend/utils/text_cleaner.py:107 | a whitespace character separates words: the words of `a`, a space, `b` are the words of `a` followed by those of `b` |
| Text.CollapseSpace | backend/utils/text_cleaner.py:37 | `re.sub(r'\s+', ' ', s)`: the only whitespace left is single plain spaces |
| Text.CollapseNoSpace | backend/utils/text_cleaner.py:37 | a text without whitespace is left unchanged |
| Text.CollapseRun | backend/utils/text_cleaner.py:37 | a whitespace run between two non-space characters becomes one space, and the text on each side collapses on its own |
| Patterns.SearchYears | backend/utils/ats_matcher.py:132 | `re.search(r'\d+\+?\s*years?', s)`: the first position where the pattern matches, or none when it matches nowhere |
| Patterns.SearchYearsLeftmost | backend/utils/ats_matcher.py:132 | `re.search` finds the leftmost match: a match with none before it is the position found |
| Patterns.FindYearsFirst | backend/utils/text_cleaner.py:205-209 | `findall` of the years pattern is empty iff `search` finds nothing, and its first number is the one at the searched position |
| Patterns.CapRuns | backend/utils/ats_matcher.py:127 | `re.findall(r'\b[A-Z][a-z]+(?:\s+[A-Z][a-z]+)*\b', s)`: every run found starts upper-case, is at least two characters of letters and spaces, and occurs in the text |
| Patterns.CapRunEnd | backend/utils/ats_matcher.py:127 | the pattern matches at `p` only at a word start with an upper-case letter, over at least two letters and spaces, ending at a word end |
| Patterns.CapRunsSearch | backend/utils/ats_matcher.py:127 | `findall` is `search` repeated: the first run is the match at the leftmost position where the pattern matches, and the scan resumes at its end; no run when no position matches |
| Patterns.CapKeywords | backend/utils/ats_matcher.py:127-128 | the lower-cased runs longer than two characters, each occurring in the lower-cased text |
| Patterns.FindAlts | backend/routes/ats_score.py:116-125 | `re.findall` of a word-bounded alternation: every hit is one of the alternatives and occurs in the text |
| Patterns.AltAtFirst | backend/routes/ats_score.py:116-124 | at a position the alternative taken is the first in pattern order that matches and is followed by `\b`; none is taken only when none does |
| Patterns.FindAltsSearch | backend/routes/ats_score.py:124 | `findall` is `search` repeated: the first hit is the alternative at the leftmost matching position, and the scan resumes just after it; no hit when no position matches |
| Patterns.WordRuns | backend/routes/ats_score.py:130 | `re.findall(r'\b\w+\b', s)`: every hit is a non-empty run of word characters occurring in the text |
| Patterns.WordRunsSearch | backend/routes/ats_score.py:130 | `findall` is `search` repeated: the first hit is the whole word-character run at the leftmost word start, and the scan resumes at its end |
| Patterns.WordRunsComplete | backend/routes/ats_score.py:130 | no word is skipped: every whole word-character run starting at or after `p` is a hit |
| Patterns.DigitRunsIffDigit | backend/utils/ats_matcher.py:335 | `re.findall(r'\d+', s)` is empty iff the text has no digit |
| PyValues.Get | backend/routes/export.py:118 | `dict.get(key, default)`: the default iff the key is missing, otherwise the value stored under it |
| PyValues.Iterate | backend/utils/latex_renderer.py:162 | iterating a list gives its items, a string its characters, a dict its keys; anything else raises |
| PyValues.GetAttr | backend/routes/export.py:127 | `x.get(key, default)`: `AttributeError` exactly when the value is not a dict; on a dict, the default when the key is missing, otherwise the value stored under that key |
| PyValues.GetCons | backend/routes/export.py:118 | `get` on a dict looks at its first key, then at the rest |
| Seqs.ListSet | backend/utils/ats_matcher.py:145 | `list(set(xs))`: a list without duplicates, holding exactly the members of the set, as many as the set has |
| AtsMatcher.ExperienceSignals | backend/utils/ats_matcher.py:130-139 | `years experience` is added exactly when the years pattern matches the lower-cased job text; `senior`, `junior` and `lead` each exactly when the text contains them |
| AtsMatcher.JobKeywordSet | backend/utils/ats_matcher.py:112-145 | empty job text gives no keywords; every keyword other than the years signal occurs in the lower-cased text; a vocabulary term is a keyword iff the text contains it; the experience signals as above |
| AtsMatcher.JobKeywordRuns | backend/utils/ats_matcher.py:127-128 | for a non-empty job text, every capitalised run longer than two characters is a keyword, lower-cased |
| AtsMatcher.JobKeywordSources | backend/utils/ats_matcher.py:112-143 | every keyword is a technical or soft-skill term, a lower-cased capitalised run, or an experience signal |
| AtsMatcher.ResumeKeywordSet | backend/utils/ats_matcher.py:147-171 | empty resume gives no keywords; every keyword occurs in the lower-cased resume; a technical, soft-skill or action-verb term is a keyword iff the resume contains it; every capitalised run longer than two characters is a keyword, lower-cased; every keyword is such a term or such a run |
| AtsMatcher.ExtractJobKeywords | backend/utils/ats_matcher.py:112-145 | `list(set(...))`: a duplicate-free list holding exactly the job keyword set, empty for an empty job text |
| AtsMatcher.ExtractResumeKeywords | backend/utils/ats_matcher.py:147-171 | a duplicate-free list holding exactly the resume keyword set, empty for an empty resume |
| AtsMatcher.Percentage | backend/utils/ats_matcher.py:182 | `score / total * 100` lies in [0, 100]; it is 0 iff nothing matched and 100 iff everything did |
| AtsMatcher.PercentageShare | backend/utils/ats_matcher.py:182 | the percentage times the total is the score times 100 |
| AtsMatcher.FindMatched | backend/utils/ats_matcher.py:318-320 | a subsequence of the job keywords holding exactly those the resume also has |
| AtsMatcher.FindMissing | backend/utils/ats_matcher.py:314-316 | a subsequence of the job keywords holding exactly those the resume lacks |
| AtsMatcher.MatchedMissingPartition | backend/utils/ats_matcher.py:314-320 | matched and missing together account for every job keyword |
| AtsMatcher.KeywordMatch | backend/utils/ats_matcher.py:173-189 | no job keywords gives score, total and percentage 0 with `matched` the integer 0, not a list; otherwise `matched` is the list of job keywords the resume has, in job order, score is its length, total the job count and the percentage their share |
| AtsMatcher.SkillMatch | backend/utils/ats_matcher.py:191-231 | total is the number of vocabulary terms in the job; no such term gives the all-zero result with `matched` the integer 0; otherwise a term is matched iff both texts contain it, in vocabulary order, and the percentage is the matched share |
| AtsMatcher.YearsFromText | backend/utils/ats_matcher.py:384-403 | 0 for an empty text; otherwise an upper bound of every number the three years patterns capture, and one of them unless 0 |
| AtsMatcher.NoYearsInEmpty | backend/utils/ats_matcher.py:386-387 | no years pattern captures anything in an empty text |
| AtsMatcher.ExtractYearsFromText | backend/utils/ats_matcher.py:384-403 | the nested loop over patterns and matches returns the largest captured number (0 if none) |
| AtsMatcher.ExperienceFor | backend/utils/ats_matcher.py:233-257 | no required years gives 50 and a match; otherwise a match iff the resume has the required years, and 100/80/60/30 exactly by the 100%, 80% and 60% thresholds |
| AtsMatcher.ExperienceMonotone | backend/utils/ats_matcher.py:243-250 | more resume years never lower the experience score |
| AtsMatcher.CalculateExperienceMatch | backend/utils/ats_matcher.py:233-257 | the years of each side, then the experience score for them |
| AtsMatcher.Education | backend/utils/ats_matcher.py:405-435 | a subsequence of the four degree labels, each present iff its pair of words occurs in the lower-cased text |
| AtsMatcher.ExtractEducationRequirements | backend/utils/ats_matcher.py:405-419 | the four tests append their labels in label order |
| AtsMatcher.ExtractEducationFromResume | backend/utils/ats_matcher.py:421-435 | the same four tests, the same labels in the same order |
| AtsMatcher.EducationMatch | backend/utils/ats_matcher.py:259-277 | a job with no education requirement gives 50 and a match; otherwise a match iff the two sides share a label, scoring 100, else 30 |
| AtsMatcher.CalculateEducationMatch | backend/utils/ats_matcher.py:259-277 | the education of each side, then the match for them |
| AtsMatcher.ActionVerbsScore | backend/utils/ats_matcher.py:279-290 | the found verbs are exactly the vocabulary verbs the resume contains, in vocabulary order; 10 points each, capped at 100 |
| AtsMatcher.WeightsSumToOne | backend/utils/ats_matcher.py:295-302 | the six weights add up to one |
| AtsMatcher.RoundHalfEven | backend/utils/ats_matcher.py:312 | Python's `round`: within one half of the exact value, an exact half goes to the even integer |
| AtsMatcher.Clamp | backend/utils/ats_matcher.py:312 | at most 100, and a value already in [0, 100] is unchanged |
| AtsMatcher.OverallFor | backend/utils/ats_matcher.py:292-312 | the overall score is at most 100 |
| AtsMatcher.CalculateOverallScore | backend/utils/ats_matcher.py:292-312 | the weighted accumulation loop, rounded and clamped, gives the overall score |
| AtsMatcher.OverallOfPercentages | backend/utils/ats_matcher.py:304-312 | when every category score is at most 100 the clamp never bites: the result is the rounded weighted sum |
| AtsMatcher.WeightedSumBound | backend/utils/ats_matcher.py:304-310 | scores of at most 100 give a weighted sum of at most 100 times the weight total |
| AtsMatcher.CountNotPercentage | backend/utils/ats_matcher.py:77-84 | the keyword, technical and soft-skill categories are weighted by their matched count (`'score'`), not their percentage: one match each with perfect other categories gives 31 |
| AtsMatcher.Suggestions | backend/utils/ats_matcher.py:322-347 | at most five messages; each rule's message is present when its test fails; the list is empty iff every test passes |
| AtsMatcher.SuggestionsSelected | backend/utils/ats_matcher.py:322-347 | the suggestions are exactly the five messages, in rule order, whose rule fires |
| AtsMatcher.SuggestionsListed | backend/utils/ats_matcher.py:322-347 | each of the five messages is in the list iff its rule fires |
| AtsMatcher.GenerateSuggestions | backend/utils/ats_matcher.py:322-347 | the five appends in rule order |
| AtsMatcher.OverallBand | backend/utils/ats_matcher.py:355-362 | the four overall bands on the 80/60/40 thresholds, each iff |
| AtsMatcher.MatchBand | backend/utils/ats_matcher.py:365-380 | the three match bands on the 70/50 thresholds, each iff |
| AtsMatcher.GenerateAnalysis | backend/utils/ats_matcher.py:349-382 | each label is the one of its score's band |
| AtsMatcher.MatchKeywords | backend/utils/ats_matcher.py:53-59 | the job keywords split into matched and missing, with the keyword score over them |
| AtsMatcher.ScoreCategories | backend/utils/ats_matcher.py:51-74 | every category scored by its own function |
| AtsMatcher.CalculateAtsScore | backend/utils/ats_matcher.py:40-104 | the overall score of the category `'score'` fields, the keyword split, suggestions and analysis for that overall score |
| AtsRoute.JobKeywordSet | backend/routes/ats_score.py:56-109 | a vocabulary term is a keyword iff the lower-cased job contains it; every capitalised run longer than two characters is a keyword, lower-cased; every keyword occurs in the lower-cased job and is a term or such a run |
| AtsRoute.ExtractJobKeywords | backend/routes/ats_score.py:96-109 | the found loop and the capitalised-run loop, deduplicated: a duplicate-free list of exactly the job keyword set |
| AtsRoute.ScanLinesStep | backend/routes/ats_score.py:145-153 | the loop's state after one more line is one step from the state before it |
| AtsRoute.ScanLinesKept | backend/routes/ats_score.py:145-153 | the kept lines are a subsequence of the CV's lines, each non-blank and naming neither a skills header nor another section; nothing is kept before a header |
| AtsRoute.ScanStopped | backend/routes/ats_score.py:151-152 | once the loop has stopped, later lines change nothing |
| AtsRoute.NoHeaderNoSkillLines | backend/routes/ats_score.py:147-153 | without a skills header line the loop keeps nothing |
| AtsRoute.NoHeaderNoSection | backend/routes/ats_score.py:139-155 | a CV with no skills header line has an empty skills section |
| AtsRoute.ExtractSkillsSection | backend/routes/ats_score.py:139-155 | the loop over the lines, then the stripped concatenation, gives the skills section |
| AtsRoute.PatternHits | backend/routes/ats_score.py:116-125 | every word the alternation patterns find occurs in the lower-cased CV and is one of a pattern's words |
| AtsRoute.CvKeywordSet | backend/routes/ats_score.py:111-137 | a keyword is exactly a candidate (pattern hit or skills-section word) that is longer than two characters and not a common word |
| AtsRoute.ExtractCvKeywords | backend/routes/ats_score.py:111-137 | a duplicate-free list of exactly the CV keyword set, none a common word or shorter than three characters |
| AtsRoute.RouteWellFormed | backend/routes/ats_score.py:116-120 | the route's vocabulary is well formed: each alternative of the three technical patterns starts and ends with a word character, as the `\b(...)\b` patterns need |
| AtsRoute.ScoreCategory | backend/routes/ats_score.py:193-202 | the label of the score's band on the 80/60/40 thresholds |
| AtsRoute.CompatibilityScore | backend/routes/ats_score.py:157-191 | no job keywords gives score 0 and the error analysis; otherwise the matched keywords are the job keywords the CV has, the score is the truncated percentage (at most 100), the first ten missing keywords are reported and the counts add up to the job total |
| AtsRoute.WholePercent | backend/routes/ats_score.py:171-172 | `min(100, int(pct))` is at most 100 |
| AtsRoute.WholePercentFloor | backend/routes/ats_score.py:171-172 | the score is the floor of the exact percentage, and 100 iff every keyword matched |
| AtsRoute.WholePercentOfPercentage | backend/routes/ats_score.py:171-182 | the integer score lies within one below the exact match percentage |
| AtsRoute.Improvements | backend/routes/ats_score.py:204-237 | at most six messages; each rule's message is present when its test fails on the joined CV keywords; empty iff every test passes |
| AtsRoute.ImprovementsSelected | backend/routes/ats_score.py:204-237 | the suggestions are exactly the six messages, in rule order, whose rule fires |
| AtsRoute.ImprovementsListed | backend/routes/ats_score.py:204-237 | each of the six messages is in the list iff its rule fires |
| AtsRoute.GenerateImprovementSuggestions | backend/routes/ats_score.py:204-237 | the six appends in rule order |
| AtsRoute.Respond | backend/routes/ats_score.py:33-51 | score at most 100, at most ten missing and six suggestions; matched iff in both keyword lists; the error analysis iff no job keywords, otherwise the counts add up to the job list's length; the score and the missing keywords are those of `calculate_compatibility_score` on the two lists, and the suggestions are those of `generate_improvement_suggestions` for that score and those missing keywords |
| AtsRoute.Answer | backend/routes/ats_score.py:33-51 | the job and CV keyword lists hold each keyword of their set once; the response facts above hold over the two sets; score, missing keywords and suggestions are the ones computed from the two lists |
| AtsRoute.CalculateAtsScore | backend/routes/ats_score.py:21-54 | a blank CV or job description fails (the 400 is caught and re-raised as 500); otherwise the keyword lists it builds, returned alongside as ghost outputs, list the job and CV keyword sets, the response facts above hold over those sets, and score and suggestions are the ones computed from those lists |
| TextCleaner.DropSpecial | backend/utils/text_cleaner.py:40 | a character survives iff it is in the kept class (word characters, whitespace and the listed punctuation) |
| TextCleaner.NormalizeBullets | backend/utils/text_cleaner.py:43 | every bullet character becomes `•`, every other character is unchanged |
| TextCleaner.BulletsAlreadyGone | backend/utils/text_cleaner.py:40-43 | after the special-character filter the bullet step changes nothing, since no bullet character is in the kept class |
| TextCleaner.TidyShape | backend/utils/text_cleaner.py:36-49 | the tidied text holds only kept, non-bullet characters, its only whitespace is the plain space, no newline, and no leading or trailing whitespace |
| TextCleaner.CleanResumeText | backend/utils/text_cleaner.py:23-51 | empty in, empty out; the result holds only kept non-bullet characters, plain spaces only, no newline, and is stripped |
| TextCleaner.CleanKeepsCleanWord | backend/utils/text_cleaner.py:23-51 | a text of kept non-space characters is returned unchanged |
| TextCleaner.NextClose | backend/utils/text_cleaner.py:67 | the position of the first `>` at or after the given index, or none |
| TextCleaner.TagEnd | backend/utils/text_cleaner.py:67 | a tag `<[^>]+>` starting here ends just after the first following `>`, with at least one non-`>` character between; none exactly when no such tag starts here |
| TextCleaner.RemoveTagsFrom | backend/utils/text_cleaner.py:67 | removing tags never lengthens the text or adds characters, and a text without `<` is unchanged |
| TextCleaner.RemoveTagsChars | backend/utils/text_cleaner.py:67 | what is left of a suffix is made of that suffix's characters |
| TextCleaner.RemoveTagsLeaveNone | backend/utils/text_cleaner.py:67 | after the substitution the pattern `<[^>]+>` matches at no position of the result |
| TextCleaner.TagEndShift | backend/utils/text_cleaner.py:67 | a character put in front of a text without a tag creates no tag after it |
| TextCleaner.CleanJobDescription | backend/utils/text_cleaner.py:53-84 | empty in, empty out; the same shape guarantees as the resume cleaner after tag removal |
| TextCleaner.NoTagsSameCleaning | backend/utils/text_cleaner.py:53-84 | a text without `<` is cleaned exactly as a resume is |
| TextCleaner.PunctToSpace | backend/utils/text_cleaner.py:104 | every character that is neither a word character nor whitespace becomes a space, all others are kept |
| TextCleaner.CandidateWords | backend/utils/text_cleaner.py:100-107 | every split word is non-empty and made of lower-case word characters |
| TextCleaner.CandidateWordsOfWord | backend/utils/text_cleaner.py:100-107 | a single lower-case word is its own only split word |
| TextCleaner.CandidateWordsAtSpace | backend/utils/text_cleaner.py:100-107 | the split words of two texts joined by a space are those of the first followed by those of the second |
| TextCleaner.Keywords | backend/utils/text_cleaner.py:86-117 | empty text gives no keywords; a word is a keyword iff it is a split word that is long enough, not a common word and not all digits |
| TextCleaner.KeywordsInOrder | backend/utils/text_cleaner.py:109-115 | the keywords are a subsequence of the split words: text order is kept |
| TextCleaner.KeywordsAtSpace | backend/utils/text_cleaner.py:86-117 | the keywords of two texts joined by a space are the first text's keywords, then the second's |
| TextCleaner.ExtractKeywords | backend/utils/text_cleaner.py:86-117 | the filtering loop yields exactly the keywords, in order |
| TextCleaner.LowerIdempotent | backend/utils/text_cleaner.py:101 | lower-casing twice is lower-casing once |
| TextCleaner.KeywordsIgnoreCase | backend/utils/text_cleaner.py:86-117 | a lower-cased text has the same keywords as the text itself |
| TextCleaner.SkillTitles | backend/utils/text_cleaner.py:146-148 | every found skill is the title-cased form of a vocabulary term the text contains |
| TextCleaner.SkillTitlesComplete | backend/utils/text_cleaner.py:146-148 | every vocabulary term the text contains is found, title-cased |
| TextCleaner.ExtractSkills | backend/utils/text_cleaner.py:143-150 | empty text gives none; a duplicate-free list of exactly the title-cased terms found |
| TextCleaner.ExtractTechnicalSkills | backend/utils/text_cleaner.py:119-150 | the same over the technical vocabulary |
| TextCleaner.ExtractSoftSkills | backend/utils/text_cleaner.py:152-181 | the same over the soft-skill vocabulary |
| TextCleaner.SkillFoundIff | backend/utils/text_cleaner.py:146-148 | a term's title is found iff some term with the same lower-case form occurs in the text |
| TextCleaner.YearsLevel | backend/utils/text_cleaner.py:209-215 | Senior iff at least 5 years, Mid-level iff 2 to 4, Junior iff under 2 |
| TextCleaner.YearsLevelMonotone | backend/utils/text_cleaner.py:209-215 | more years never give a lower level |
| TextCleaner.ExperienceLevel | backend/utils/text_cleaner.py:183-217 | one of the four levels; Unknown iff the text is empty or has no level word and no years phrase; a senior word wins, then a junior word, then a mid-level word |
| TextCleaner.ExperienceLevelByYears | backend/utils/text_cleaner.py:205-215 | without level words the level comes from the first number before `year` |
| TextCleaner.ExtractEducationRequirements | backend/utils/text_cleaner.py:219-247 | the five tests append their labels in label order |
| TextCleaner.DiplomaLast | backend/utils/text_cleaner.py:236-245 | the cleaner's labels are the scorer's four followed by Diploma when the text has `diploma` |
| TextCleaner.NoEducationInEmpty | backend/utils/text_cleaner.py:229-230 | an empty text has no education labels |
| TextCleaner.EducationExtendsScorer | backend/utils/text_cleaner.py:219-247 | the cleaner's education of a text is the scorer's plus an optional Diploma |
| TextCleaner.EducationLabelsIff | backend/utils/text_cleaner.py:236-245 | a subsequence of the five labels, each present iff its test holds |
| TextCleaner.Unwatermarked | backend/utils/text_cleaner.py:329-330 | empty text stays empty |
| TextCleaner.UnwatermarkedKeptLines | backend/utils/text_cleaner.py:346-356 | when some line is kept, the lines of the result are exactly the kept lines, in order |
| TextCleaner.RemoveWatermarks | backend/utils/text_cleaner.py:319-356 | the line loop keeps exactly the lines without a watermark phrase |
| TextCleaner.UnwatermarkedLines | backend/utils/text_cleaner.py:346-356 | no line of the result holds a watermark phrase |
| TextCleaner.NoWatermarkUnchanged | backend/utils/text_cleaner.py:346-356 | a text without watermark lines is returned unchanged |
| TextCleaner.UnwatermarkedIdempotent | backend/utils/text_cleaner.py:319-356 | removing watermarks twice is removing them once |
| TextCleaner.HeadingIn | backend/utils/text_cleaner.py:395-405 | a heading is named by a table entry one of whose words the line holds; none iff no entry's words occur |
| TextCleaner.HeadingInFirst | backend/utils/text_cleaner.py:395-405 | the heading found is the first table entry, in table order, one of whose words the line holds |
| TextCleaner.HeadingInFound | backend/utils/text_cleaner.py:395-405 | conversely, a heading found is the name of a table entry one of whose words the line holds, and no earlier entry matches |
| TextCleaner.Heading | backend/utils/text_cleaner.py:374-405 | a heading is one of the seven section names |
| TextCleaner.FindHeading | backend/utils/text_cleaner.py:395-405 | the inner loop over the table stops at the first matching entry |
| TextCleaner.ExtractSections | backend/utils/text_cleaner.py:358-418 | the line loop, then the last open section saved, gives `TextCleaner.Sections` of the text: the scan of its lines with the open section saved, nothing for an empty text |
| TextCleaner.ScanSectionLines | backend/utils/text_cleaner.py:388-412 | the loop's state after all lines is the scan of the lines |
| TextCleaner.ScanSectionLine | backend/utils/text_cleaner.py:389-412 | one pass of the loop body is one scan step |
| TextCleaner.LinesOfJoin | backend/utils/text_cleaner.py:399 | joining single lines with newlines and splitting again gives them back |
| TextCleaner.SaveGood | backend/utils/text_cleaner.py:398-399 | saving the open section keeps every section well formed |
| TextCleaner.ScanStepGood | backend/utils/text_cleaner.py:389-412 | one line keeps the scan well formed |
| TextCleaner.ScanLinesGood | backend/utils/text_cleaner.py:388-412 | the whole loop keeps the scan well formed |
| TextCleaner.SectionsWellFormed | backend/utils/text_cleaner.py:358-418 | every section key is `header` or a section name, and its text is non-empty and made of stripped, non-empty, non-heading lines |
| TextCleaner.EmptyNotSectionText | backend/utils/text_cleaner.py:398 | the empty text is not a section body: empty sections are never saved |
| TextCleaner.NoHeadingScan | backend/utils/text_cleaner.py:407-412 | without heading lines the scan records only the first non-blank line as `header` |
| TextCleaner.NoHeadingSections | backend/utils/text_cleaner.py:358-418 | a text without heading lines has at most the `header` section, holding its first non-blank line |
| TextCleaner.HeaderNotSectionName | backend/utils/text_cleaner.py:374-382 | `header` is none of the seven section names |
| TextCleaner.FirstNonBlankSnoc | backend/utils/text_cleaner.py:388-391 | one more line changes the first non-blank line only when there was none |
| TextCleaner.SaveKeepsHeader | backend/utils/text_cleaner.py:398-399 | saving the open section leaves the `header` entry as it was |
| TextCleaner.HeaderRuleStep | backend/utils/text_cleaner.py:388-412 | one line keeps the `header` rule: before any heading the sections are at most the first non-blank line, afterwards `header` is that line exactly when it was no heading |
| TextCleaner.ScanLinesHeader | backend/utils/text_cleaner.py:388-412 | the whole loop keeps the `header` rule |
| TextCleaner.HeaderEntry | backend/utils/text_cleaner.py:407-416 | `header` is present iff the first non-blank line is not a heading, and then holds that line stripped; later lines before the first heading are dropped |
| TextCleaner.SplitLast | backend/utils/text_cleaner.py:388 | a non-empty list is its front followed by its last element |
| TextCleaner.ScanSectionBody | backend/utils/text_cleaner.py:396-408 | after a heading, each following non-blank non-heading line is appended stripped to the open section, and earlier sections are saved |
| TextCleaner.LastSectionWins | backend/utils/text_cleaner.py:398-416 | a heading followed by plain lines to the end leaves its section holding those lines stripped and joined by newlines, overwriting any earlier section of that name |
| AiEngine.ToneInstruction | backend/utils/ai_engine.py:90-96 | the tech and creative instructions exactly for those tones; the professional one for every other tone |
| AiEngine.PromptHoldsInputs | backend/utils/ai_engine.py:98-156 | the filled prompt contains the tone instruction, the job description and the resume |
| AiEngine.ScoreFrom | backend/utils/ai_engine.py:305-337 | the score of five decided tests lies in [50, 100] |
| AiEngine.OptimizationScoreRange | backend/utils/ai_engine.py:303-337 | the score is 50 plus 10, 15, 10, 10 and 5 for the tests that pass; 50 iff none passes and 100 iff all pass |
| AiEngine.CalculateOptimizationScore | backend/utils/ai_engine.py:303-337 | the word-growth, number, verb, summary and skills tests, then the tally |
| AiEngine.TallyScore | backend/utils/ai_engine.py:305-337 | the conditional additions and the cap at 100 give the score of the decided tests |
| AiEngine.MessagesDistinct | backend/utils/ai_engine.py:269-301 | the five improvement messages are distinct, and the general message is none of them |
| AiEngine.ImprovementsListed | backend/utils/ai_engine.py:267-301 | one to five messages; each rule's message is listed iff its test passes; the general message alone iff no test passes |
| AiEngine.ExtractImprovements | backend/utils/ai_engine.py:267-301 | the five tests on the two texts, then the collected messages |
| AiEngine.CollectImprovements | backend/utils/ai_engine.py:269-301 | the conditional appends in rule order, or the general message when none fired |
| AiEngine.FromSelected | backend/utils/ai_engine.py:301 | `improvements if improvements else [general]` over the selected messages |
| AiEngine.JobKeywords | backend/utils/ai_engine.py:247-265 | empty job gives none; otherwise the technical terms the lower-cased job contains, in vocabulary order |
| AiEngine.ExtractKeywordsFromJob | backend/utils/ai_engine.py:247-265 | the loop over the vocabulary appends exactly the terms found |
| AiEngine.Bullets | backend/utils/ai_engine.py:227-228 | one bullet line `• ` plus the title-cased keyword per keyword |
| AiEngine.BulletsTakeOneMore | backend/utils/ai_engine.py:227-228 | one more keyword appends one more bullet line |
| AiEngine.FallbackLayout | backend/utils/ai_engine.py:208-233 | the document has 13 lines plus one per keyword up to ten, with the five headings at their places and the bullet lines between skills and the blank line |
| AiEngine.FallbackBulletsFromJob | backend/utils/ai_engine.py:205-228 | the listed skills are at most the first ten technical terms the job contains, in vocabulary order |
| AiEngine.FallbackOptimization | backend/utils/ai_engine.py:199-245 | the rule-based result: the document for the job's keywords, fixed improvements and score 60 |
| AiEngine.FallbackDocument | backend/utils/ai_engine.py:208-235 | the appends joined by newlines give the fallback lines for the keywords |
| AiEngine.ModelResult | backend/utils/ai_engine.py:45-61 | a usable reply is returned as the optimised text, marked as the model's, with a score in [50, 100] |
| AiEngine.OptimizeResume | backend/utils/ai_engine.py:25-65 | `optimize_resume`: the result is `fallback_optimization`'s exactly when the service is unavailable, the call fails or the reply is empty, and is tagged `ai_optimization` exactly when the reply is usable |
| AiEngine.FallbackIffUnusable | backend/utils/ai_engine.py:25-65 | the result is exactly `fallback_optimization`'s (tagged `rule_based_optimization`) iff there is no usable reply; otherwise it is the reply with its own improvements and score |
| Transform.ToneInstruction | backend/routes/transform.py:108-114 | the route's own three instructions, selected as the engine selects them |
| Transform.PromptHoldsInputs | backend/routes/transform.py:116-171 | the filled prompt contains the instruction, the job description and the CV |
| Transform.JobKeywords | backend/routes/transform.py:210-231 | the technical then soft terms the lower-cased job contains, in list order |
| Transform.EmptyJobNoKeywords | backend/routes/transform.py:210-231 | an empty job description yields no keywords (the route has no explicit check) |
| Transform.ExtractKeywordsFromJob | backend/routes/transform.py:224-231 | the loop appends exactly the terms found |
| Transform.AsWrittenBullets | backend/routes/transform.py:200-201 | as written, each skill line starts with the three misencoded characters of the bullet |
| Transform.MisencodedBulletsDiffer | backend/routes/transform.py:201 | for any non-empty keyword list the first skill line as written starts with `â`, where the engine's starts with `•` |
| Transform.AsWrittenSameSkeleton | backend/routes/transform.py:173-208 | the fallback as written and the corrected one have the same lines except the skill lines, which differ only in the bullet |
| Transform.FallbackOptimization | backend/routes/transform.py:173-208 | with the bullet corrected, the route's fallback is the engine's document for the route's keyword list |
| Transform.ExtractImprovements | backend/routes/transform.py:233-267 | the same tests and messages as the engine: one to five messages |
| Transform.GenerateAtsResume | backend/routes/transform.py:60-103 | a connection error gives the fallback text; success only for a non-empty reply, returned as is; any other failure raises "AI generation failed: " with its message, and an empty reply raises it with "No response from AI model" |
| ResumeParser.Extension | backend/utils/parser_pdf_docx.py:247 | the extension, the lower-cased text after the last dot, holds no dot |
| ResumeParser.Dispatch | backend/utils/parser_pdf_docx.py:234-258 | `pdf` goes to the PDF parser, `docx` and `doc` to the DOCX parser; any other extension fails with the wrapped "Unsupported file format" message |
| ResumeParser.ExtensionAfterLastDot | backend/utils/parser_pdf_docx.py:247 | a name ending in `.ext` has the lower-cased `ext` as extension |
| ResumeParser.NoDotWholeName | backend/utils/parser_pdf_docx.py:247 | a name without a dot is its own extension, lower-cased |
| ResumeParser.ContactName | backend/utils/parser_pdf_docx.py:311-316 | the name is empty or the stripped first line; it is that line whenever the line has at most three words; it never has more than three words or a newline |
| ResumeParser.Heading | backend/utils/parser_pdf_docx.py:349-380 | a heading is one of the parser's seven section names |
| ResumeParser.HeadingFirst | backend/utils/parser_pdf_docx.py:370-380 | a line opens the first section of the parser's table, in table order, one of whose words it holds |
| ResumeParser.ExtractSections | backend/utils/parser_pdf_docx.py:344-389 | the line loop, then the last open section saved, gives `ResumeParser.Sections` of the text: the scan of its lines with the open section saved |
| ResumeParser.ScanSectionLines | backend/utils/parser_pdf_docx.py:359-387 | the loop over the lines and the final save |
| ResumeParser.ScanSectionLine | backend/utils/parser_pdf_docx.py:364-383 | one pass of the loop body is one scan step |
| ResumeParser.SaveGood | backend/utils/parser_pdf_docx.py:373-374 | saving the open section keeps the sections well formed |
| ResumeParser.ScanStepGood | backend/utils/parser_pdf_docx.py:364-383 | one line keeps the scan well formed |
| ResumeParser.ScanFromGood | backend/utils/parser_pdf_docx.py:363-383 | the whole loop keeps the scan well formed |
| ResumeParser.SectionsWellFormed | backend/utils/parser_pdf_docx.py:344-389 | every section key is a section name (there is no `header` entry here), and its text is non-empty lines that are not headings |
| ResumeParser.ScanFromAppend | backend/utils/parser_pdf_docx.py:363-383 | scanning two runs of lines is scanning the first, then the second from there |
| ResumeParser.NoHeadingNothing | backend/utils/parser_pdf_docx.py:382-383 | lines without headings leave the empty scan unchanged: text before the first heading is dropped |
| ResumeParser.LeadingLinesDropped | backend/utils/parser_pdf_docx.py:382-383 | heading-free lines before the rest do not affect the scan |
| ResumeParser.NoHeadingNoSections | backend/utils/parser_pdf_docx.py:344-389 | a text without heading lines has no sections |
| ResumeParser.ExtractSkills | backend/utils/parser_pdf_docx.py:391-407 | a duplicate-free list holding the title-cased form of exactly the vocabulary terms the lower-cased text contains |
| ResumeParser.TerminatedJoin | backend/utils/parser_pdf_docx.py:426 | lines each followed by a newline are the lines joined with a trailing empty line |
| ResumeParser.TerminatedLines | backend/utils/parser_pdf_docx.py:426-431 | splitting the newline-terminated lines gives them back plus a final empty line |
| ResumeParser.CutSection | backend/utils/parser_pdf_docx.py:414-426 | the section loop yields the kept stripped lines, each followed by a newline |
| ResumeParser.CutStepKept | backend/utils/parser_pdf_docx.py:418-426 | one line keeps every kept line non-empty, single-line and free of start and stop words |
| ResumeParser.CutKeptLines | backend/utils/parser_pdf_docx.py:418-426 | the whole loop keeps that property |
| ResumeParser.SectionLinesKept | backend/utils/parser_pdf_docx.py:414-426 | every line of a cut section is non-empty, single-line and names neither a start nor a stop word |
| ResumeParser.CutFromAppend | backend/utils/parser_pdf_docx.py:418-426 | cutting two runs of lines is cutting the first, then the second from there |
| ResumeParser.SectionEndsAtStop | backend/utils/parser_pdf_docx.py:424-425 | inside a section, a stop line ends it: nothing after it is kept |
| ResumeParser.StopLineEnds | backend/utils/parser_pdf_docx.py:424-425 | a stop line inside a section ends the loop |
| ResumeParser.NoStartNoSection | backend/utils/parser_pdf_docx.py:420-423 | without a start line nothing is kept |
| ResumeParser.ScanEntries | backend/utils/parser_pdf_docx.py:434-457 | the job loop over the section lines yields the entries |
| ResumeParser.ExtractExperience | backend/utils/parser_pdf_docx.py:409-459 | the section cut, then the job loop, gives `ResumeParser.Experience`: no entries for an empty cut, otherwise the entries of its lines |
| ResumeParser.ExperienceOfSection | backend/utils/parser_pdf_docx.py:429-459 | the experience is the entries of the cut experience section's lines |
| ResumeParser.BlankLineNoEntry | backend/utils/parser_pdf_docx.py:436-437 | a blank line changes no entry |
| ResumeParser.Titles | backend/utils/parser_pdf_docx.py:443-448 | one title per job |
| ResumeParser.JobStepTitles | backend/utils/parser_pdf_docx.py:440-454 | a title line adds its own title, any other line adds none |
| ResumeParser.EntryTitles | backend/utils/parser_pdf_docx.py:434-457 | the entries' titles are exactly the title lines, in order |
| ResumeParser.ExperienceTitles | backend/utils/parser_pdf_docx.py:409-459 | the job titles are exactly the title lines of the experience section |
| ResumeParser.FlushGood | backend/utils/parser_pdf_docx.py:456-457 | every flushed job is well formed |
| ResumeParser.JobStepGood | backend/utils/parser_pdf_docx.py:440-454 | one line keeps every job well formed: its title is a title line |
| ResumeParser.ScanJobsGood | backend/utils/parser_pdf_docx.py:434-457 | the whole job loop keeps that |
| ResumeParser.ExperienceGood | backend/utils/parser_pdf_docx.py:409-459 | every experience entry has a title-line title |
| ResumeParser.CompanyFollowsTitle | backend/utils/parser_pdf_docx.py:449-450 | the first non-title line after a title becomes the company |
| ResumeParser.LaterLines | backend/utils/parser_pdf_docx.py:451-454 | once the company is set, a line with a digit replaces the duration and any other line is appended to the description |
| ResumeParser.ExtractEducation | backend/utils/parser_pdf_docx.py:461-493 | the section cut, then the degree loop, gives `ResumeParser.Education`: no entries for an empty cut, otherwise one per degree line |
| ResumeParser.ScanDegrees | backend/utils/parser_pdf_docx.py:482-491 | the degree loop yields one entry per degree line |
| ResumeParser.DegreesOf | backend/utils/parser_pdf_docx.py:486-491 | one entry per name, with the name as degree and the other fields empty |
| ResumeParser.DegreesOfAppend | backend/utils/parser_pdf_docx.py:483-491 | entries of two runs are the entries of each, concatenated |
| ResumeParser.DegreeEntriesOfClean | backend/utils/parser_pdf_docx.py:482-491 | over stripped lines the entries are exactly the degree lines, in order |
| ResumeParser.EducationOfSection | backend/utils/parser_pdf_docx.py:461-493 | the education is one entry per degree line of the cut education section |
| ResumeParser.ExtractStructuredData | backend/utils/parser_pdf_docx.py:260-298 | an empty text gives the empty result; otherwise the name, sections, skills, experience, education, raw text and metadata are each what their extractor yields |
| ParseRoute.CheckUpload | backend/routes/parse.py:18-26 | an empty name is refused as "no file"; an upload is accepted iff its extension is pdf, docx or doc, and then carries that extension |
| ParseRoute.UploadCheckAgreesWithParser | backend/routes/parse.py:21-26 | for a named upload the route accepts exactly what the resume parser dispatches |
| ParseRoute.CleanText | backend/routes/parse.py:83-95 | the result has no newline, is stripped, and holds only kept characters with plain spaces as its only whitespace |
| ParseRoute.CleanTextAsCleaner | backend/routes/parse.py:83-95 | the route's cleaning (its `\n\s*\n` step moved before the filter) gives exactly the cleaner's resume cleaning |
| ParseRoute.Heading | backend/routes/parse.py:124-148 | a heading is one of the four section names |
| ParseRoute.StructureResumeText | backend/routes/parse.py:97-161 | the line loop, then the last section saved, gives the structure of the text |
| ParseRoute.ScanStructure | backend/routes/parse.py:134-155 | the loop's state after all lines is the structure scan of the lines |
| ParseRoute.StructureLine | backend/routes/parse.py:135-155 | one pass of the loop body is one structure step |
| ParseRoute.StepOnValues | backend/routes/parse.py:140-155 | the loop body on a stripped line, its heading and its word-count test |
| ParseRoute.SaveStruct | backend/routes/parse.py:143-144 | saving keeps every stored section a section name with a non-empty value |
| ParseRoute.StructStepGood | backend/routes/parse.py:134-155 | one line keeps the structure well formed |
| ParseRoute.StructLinesGood | backend/routes/parse.py:134-155 | the whole loop keeps it |
| ParseRoute.StructureWellFormed | backend/routes/parse.py:123-159 | every section key is one of the four names with a non-empty value; the name is empty or a non-heading line of at most three words |
| ParseRoute.NameSetOnce | backend/routes/parse.py:152-155 | once set, or once a section is open, the name never changes |
| ParseRoute.NameSettled | backend/routes/parse.py:152-155 | from a state with a name or an open section, no later line changes the name |
| ParseRoute.FirstNameFrom | backend/routes/parse.py:150-155 | before any name or section the name becomes the first qualifying line |
| ParseRoute.NameIsFirstNameLine | backend/routes/parse.py:150-155 | the name is the first non-blank line of at most three words seen before any section heading |
| ParseRoute.CleanedTextHasNoSections | backend/routes/parse.py:40-41 | the cleaned text is one line, so its structure has no section |
| ParseRoute.OneLineStructure | backend/routes/parse.py:134-159 | a text of one line never stores a section: a heading line opens one with no content |
| ParseRoute.ParseResumeAsWritten | backend/routes/parse.py:16-54 | as written, every failure, refusals included, is answered with status 500 |
| ParseRoute.ParseResume | backend/routes/parse.py:16-54 | a 400 iff the upload is refused; a 500 iff an accepted upload fails to extract; a parsed reply carries the name and the cleaned text |
| ParseRoute.RefusalBecomesServerError | backend/routes/parse.py:16-26 | a refused upload gets 500 as written where 400 is meant |
| ParseRoute.TextFileRefusedAsServerError | backend/routes/parse.py:22-26 | the upload `resume.txt` is answered "500 Error parsing resume: 400: Unsupported file type ..." |
| ParseRoute.ParsedReply | backend/routes/parse.py:39-54 | a failed extraction is a 500 "Error parsing resume: …" and nothing else is; a parsed reply carries the file name, the cleaned one-line text, its word count and a structure without sections |
| ParseRoute.ParsedReplyShape | backend/routes/parse.py:39-51 | a parsed reply's text is one line, its word count is the number of words, and its structure has no section |
| ParseRoute.JobTitle | backend/routes/parse.py:203-206 | the title is the stripped first line among the first five that has a title word, and empty when none has |
| ParseRoute.ExtractTitle | backend/routes/parse.py:203-206 | the loop over the first five lines breaks at the first title line |
| ParseRoute.Titles | backend/routes/parse.py:218 | one title-cased term per term |
| ParseRoute.TitledHits | backend/routes/parse.py:216-218 | an entry is the title of a listed term the text contains, and every such term contributes its title; at most one entry per term |
| ParseRoute.TitledHitsInOrder | backend/routes/parse.py:216-218 | the entries are the titles of the terms found, a subsequence of the list in list order |
| ParseRoute.LineSkills | backend/routes/parse.py:216-218 | every entry for a line is the title of a skill term, and every skill term the lower-cased line contains gives its title |
| ParseRoute.JobSkills | backend/routes/parse.py:214-218 | every entry is the title of a skill term |
| ParseRoute.ExtractJobSkills | backend/routes/parse.py:214-218 | the nested loop appends one entry per (line, term) hit |
| ParseRoute.ExtractLineSkills | backend/routes/parse.py:215-218 | the inner loop over the terms for one line |
| ParseRoute.JobSkillsAppend | backend/routes/parse.py:214-218 | the skills of two runs of lines are each run's skills concatenated: duplicates across lines are kept |
| ParseRoute.SkillOnLine | backend/routes/parse.py:214-218 | every term a line contains contributes its title |
| ParseRoute.Search | backend/routes/parse.py:221-232 | a found match occurs in the text, is non-empty for the two regex patterns, and a plain word is found iff the text contains it |
| ParseRoute.SearchDottedLeftmost | backend/routes/parse.py:221-232 | `a.b` is found at its leftmost match, and the text found is the match |
| ParseRoute.SearchDottedNone | backend/routes/parse.py:221-232 | `a.b` finds nothing iff it matches at no position |
| ParseRoute.SearchYearsPatternLeftmost | backend/routes/parse.py:221-232 | the years pattern is found at its leftmost match, running to that match's end |
| ParseRoute.FirstMatch | backend/routes/parse.py:230-233 | the level found occurs in the text |
| ParseRoute.FirstMatchAt | backend/routes/parse.py:230-233 | patterns are tried in list order: the first that matches gives the level |
| ParseRoute.ExtractExperienceLevel | backend/routes/parse.py:230-233 | the loop over the patterns breaks at the first that matches: the level is `ParseRoute.ExperienceLevel`, the first pattern's match in the lower-cased job |
| ParseRoute.FirstMatchIff | backend/routes/parse.py:230-233 | nothing is found iff no pattern matches |
| ParseRoute.ExperienceLevelIff | backend/routes/parse.py:220-233 | the level is empty iff no pattern matches the lower-cased job, and is the years match whenever there is one |
| ParseRoute.SeniorBeforeLead | backend/routes/parse.py:221-233 | without a years phrase or `entry.level`, a text holding `senior` is senior even when it also holds `lead` |
| ParseRoute.ExtractJobRequirements | backend/routes/parse.py:186-235 | the title, skills and experience level are each what their rule yields |
| ExportRoute.ParseExperienceText | backend/routes/export.py:165-201 | the line loop, then the final push, gives `ExportRoute.Experience`: no entries for an empty text, otherwise the scan's entries with the open one pushed |
| ExportRoute.StepValues | backend/routes/export.py:177-196 | one pass of the loop body on a stripped line, its title test and its digit test |
| ExportRoute.Titles | backend/routes/export.py:185-190 | one title per entry |
| ExportRoute.StepOnTitles | backend/routes/export.py:176-196 | a title line adds its own title; any other line adds none |
| ExportRoute.ScanLinesTitles | backend/routes/export.py:176-199 | the titles of the loop's entries are exactly the title lines, in order |
| ExportRoute.ExperienceTitles | backend/routes/export.py:165-201 | empty text gives no entries; otherwise there is one entry per title line (with `coordinator` among the title words), titled by it |
| ExportRoute.CompanyThenYears | backend/routes/export.py:191-196 | after a title, the first other line becomes the company; later, the first line with a digit sets the years once; the title never changes |
| ExportRoute.TitleLineOpens | backend/routes/export.py:182-190 | a title line pushes the open entry and opens a new one with empty fields |
| ExportRoute.NoTitleNoEntry | backend/routes/export.py:176-199 | lines without a title word yield no entry: lines before the first title are dropped |
| ExportRoute.EntryValue | backend/routes/export.py:185-190 | an entry is a dict with exactly the keys title, company, years, description |
| ExportRoute.EntryValueFields | backend/routes/export.py:185-190 | the dict of an entry gives back its title, company, years and description under those keys |
| ExportRoute.EntryValues | backend/routes/export.py:131-133 | one dict per entry, in entry order, each the dict of that entry |
| ExportRoute.ParseExperienceValue | backend/routes/export.py:165-201 | a falsy value gives `[]`; a truthy non-string raises; a string gives its entries |
| ExportRoute.ParseSkillsAsWritten | backend/routes/export.py:203-212 | as written, any truthy value raises (the `re` module is not imported) |
| ExportRoute.AsWrittenSeparatorsMissBullet | backend/routes/export.py:209 | the separator class as written holds no bullet but holds "¢" and "€", where the class meant holds the bullet and neither of those |
| ExportRoute.SkillPieces | backend/routes/export.py:209-212 | at most twenty pieces, each non-empty and stripped |
| ExportRoute.ParseSkills | backend/routes/export.py:203-212 | a falsy value gives `[]`; a truthy non-string raises; otherwise at most twenty non-empty stripped pieces |
| ExportRoute.SkillsRoundTrip | backend/routes/export.py:203-212 | stripped non-empty skills without separators, joined by commas, come back as the first twenty of them |
| ExportRoute.LettersOnly | backend/routes/export.py:209 | a word of letters holds no separator |
| ExportRoute.SkillsTextRaisesAsWritten | backend/routes/export.py:203-212 | `"Python,SQL"` raises NameError as written, where `["Python", "SQL"]` is meant |
| ExportRoute.WithFallback | backend/routes/export.py:124-127 | a truthy top-level value, or no `sections` key, is kept; the fallback fails only when `sections` is not a dict |
| ExportRoute.ExperienceValue | backend/routes/export.py:129-133 | the top-level experience when truthy or no `sections`; otherwise the parsed entries of the sections' experience text, raising when that text is a truthy non-string |
| ExportRoute.SkillsValue | backend/routes/export.py:135-139 | the top-level skills when truthy or no `sections`; otherwise the parsed pieces of the sections' skills text, raising when that text is a truthy non-string |
| ExportRoute.ContactOf | backend/routes/export.py:117-122 | each of name, title, email, phone and location is the given value, or its fixed default when the key is missing |
| ExportRoute.ContentsOf | backend/routes/export.py:124-144 | it succeeds iff all four field lookups do, the first failure in source order being the one raised; without `sections` the four values are as given; a truthy value is always kept; a falsy summary or education is taken from `sections`; experience and skills are their fallback values |
| ExportRoute.PrepareResumeData | backend/routes/export.py:114-163 | it succeeds iff the contents do; the watermark is "Generated with Rezoom.ai" when requested and empty otherwise; contact and contents are those above |
| LatexRenderer.GetAll | backend/utils/latex_renderer.py:164-173 | the record holds each listed key, in order, with the item's value or the key's default |
| LatexRenderer.GetAllMissing | backend/utils/latex_renderer.py:164-173 | a dict with none of the keys gives the defaults |
| LatexRenderer.Records | backend/utils/latex_renderer.py:158-175 | never more records than items, and every record is a dict with exactly the listed keys |
| LatexRenderer.RecordsSnoc | backend/utils/latex_renderer.py:162-173 | one more item adds its record when it is a dict, nothing otherwise |
| LatexRenderer.RecordsOfDicts | backend/utils/latex_renderer.py:158-175 | one record per dict item, in order, each the keys of that dict with defaults: non-dict items are dropped |
| LatexRenderer.RecordsNoDicts | backend/utils/latex_renderer.py:162-163 | a list without dicts gives no records |
| LatexRenderer.ProcessedRecords | backend/utils/latex_renderer.py:158-192 | iterating a non-iterable raises; a list gives its records; a string or dict yields no dict items; every record has exactly the listed keys |
| LatexRenderer.CollectRecords | backend/utils/latex_renderer.py:160-175 | the append loop yields the records of the items |
| LatexRenderer.ProcessExperienceData | backend/utils/latex_renderer.py:158-175 | the records with the eight experience keys and their defaults |
| LatexRenderer.ProcessEducationData | backend/utils/latex_renderer.py:177-192 | the records with the six education keys and their defaults |
| LatexRenderer.KeepSkills | backend/utils/latex_renderer.py:200 | a non-string item raises; otherwise the items whose strip is non-empty, in order |
| LatexRenderer.CommaPieces | backend/utils/latex_renderer.py:196-198 | at least one piece, each stripped and free of commas |
| LatexRenderer.ProcessSkills | backend/utils/latex_renderer.py:194-200 | a string gives its non-blank stripped comma pieces; a list gives the subsequence of its non-blank items, raising on a non-string; other values raise |
| LatexRenderer.SkillsStringRoundTrip | backend/utils/latex_renderer.py:194-200 | stripped non-empty skills without commas, joined by commas, come back unchanged |
| LatexRenderer.SkillsIdempotent | backend/utils/latex_renderer.py:194-200 | processing processed skills again changes nothing |
| LatexRenderer.ProcessedSkillsKept | backend/utils/latex_renderer.py:194-200 | every processed skill is a non-blank string |
| LatexRenderer.KeptSkillsStay | backend/utils/latex_renderer.py:200 | a list of non-blank strings is kept as it is |
| LatexRenderer.Refined | backend/utils/latex_renderer.py:145-154 | a falsy value is kept as it is; the result fails iff the value is truthy and its processing fails |
| LatexRenderer.PrepareTemplateData | backend/utils/latex_renderer.py:121-156 | fails iff processing a truthy experience, education or skills value fails; otherwise the sixteen looked-up values with those three replaced by their processed forms when truthy |
| LatexRenderer.EmptyResumeDefaults | backend/utils/latex_renderer.py:125-142 | an empty resume gets the defaults, with empty lists left unprocessed |

## Left out

- Display rounding: the `round(x, 2)` of the percentages (backend/utils/ats_matcher.py:188, 209, 230, backend/routes/ats_score.py:182) is not modelled. The percentages are exact reals, so a contract states the exact quotient. Only the overall score's `round` is modelled, as half-to-even.
- AtsRoute.WholePercent: `int((m / n) * 100)` (backend/routes/ats_score.py:171-172) is modelled as the floor of the exact quotient `100 * m / n`. The source multiplies a binary float, which can land just below a whole number: for 29 of 50 keywords Python computes 57.99999999999999 and scores 57, where the model scores 58. The same holds for `AtsRoute.CompatibilityScore`, which uses it. Modelling IEEE 754 doubles is outside the model.
- AtsMatcher.CalculateOverallScore: the weighted sum is rounded as an exact value, so a sum that binary floating point puts just beside a half (backend/utils/ats_matcher.py:292-312) may round differently from the source.
- The `isinstance(score, dict)` branch of `calculate_overall_score` (backend/utils/ats_matcher.py:308-309) is not modelled, because every scorer stores an integer score, so the branch never fires.
- Unicode: `lower`, `title`, `isdigit`, `\w`, `\s` and `\b` are modelled for ASCII only. Case folding of other scripts and Unicode digits and spaces are outside the model.
- The email, phone, LinkedIn and website regular expressions are not modelled (backend/utils/parser_pdf_docx.py:318-340, backend/routes/parse.py:111-121, backend/utils/text_cleaner.py:293-315). They are large patterns whose only effect is a string match. Of `extract_contact_info`, only the name is modelled (`ResumeParser.ContactName`).
- `TextCleaner.normalize_text` (backend/utils/text_cleaner.py:249-271) and `TextCleaner.extract_contact_info` (backend/utils/text_cleaner.py:273-317) are not modelled. They are per-character Unicode rewriting and the contact regular expressions above; no core operation calls them.
- Time and identifiers: `generated_date`, `datetime.now()` and the `uuid` file names are not modelled, because they depend on the clock and on randomness.
- File extraction: reading PDF and DOCX bytes (`parse_pdf`, `parse_docx`, the uploaded file's size) is not modelled. Extraction is an input to the model: its text, or the failure it raised.
- The handlers `transform_resume` (backend/routes/transform.py:27-58), `parse_job_description` (backend/routes/parse.py:163-184), `GET /keywords` (backend/routes/ats_score.py:239 onward) and the health endpoints are not modelled. They only forward to the modelled functions and wrap the result in a response.
- LaTeX: writing the template, running `pdflatex`, the Jinja environment and the file responses are not modelled (backend/utils/latex_renderer.py:18-119 and 202 onward, backend/routes/export.py:26-112 and 214 onward). They are subprocess and file I/O. The data handed to the template is modelled.
- The Ollama HTTP calls are abstracted as an outcome parameter: the service unavailable, the call failed, or the text it returned. The prompt text is modelled by the headings that frame the resume, the job description and the tone, not word for word.
- AtsRoute.CalculateAtsScore: the contract does not state `total_job_keywords` as the size of a keyword set, because the route's job keyword list comes from `list(set(...))` and only its length and membership are stated.
- TextCleaner.CleanJobDescription: that no tag is left is proved of the tag removal (`TextCleaner.RemoveTagsLeaveNone`), not of the whitespace clean-up that follows it, so the contract does not state it of the final text.
- TextCleaner.ExtractSections: a Python dictionary keeps insertion order; the model's map has no order, so the order in which sections were first recorded is not kept.
- Transform.GenerateAtsResume: the fallback it returns after a connection error is the corrected text, with "• " bullets. As written, the route returns the lines of `Transform.AsWrittenFallbackLines`, which differ only in the bullets (`Transform.AsWrittenSameSkeleton`, and the Findings table).
- ExportRoute.SkillsValue: a skills text under `sections` is parsed by the corrected `ExportRoute.ParseSkills`. As written, any truthy skills text raises `NameError` there (`ExportRoute.ParseSkillsAsWritten`, and the Findings table).
- ExportRoute.ContentsOf: built on `ExportRoute.SkillsValue`, so it inherits the corrected skills parsing. As written, it fails with `NameError` whenever it falls back to a truthy `sections` skills text.
- ExportRoute.PrepareResumeData: built on `ExportRoute.ContentsOf`, so it too has the corrected skills parsing and succeeds where the code as written raises `NameError`.
- TextCleaner.SkillFoundIff: a skill is stated as found up to ASCII case, because that is what matching the lower-cased text against the lower-case vocabulary gives.
- The `re.sub(r'\n\s*\n', '\n\n', text)` step of `clean_text` in backend/routes/parse.py is modelled as a no-op, because every newline has already been turned into a space by the `\s+` step before it.
- LatexRenderer.PrepareTemplateData: the template dictionary is a record with one field per key, so key order and extra keys are not kept.
- PyValues.Iterate: iterating a string or a dictionary yields string values (its characters or its keys). Iterating any other value raises `TypeError`.
- ParseRoute: an `HTTPException` turned into text is taken to read "400: " and the detail. That is the framework's `__str__`, which is not part of this model.
- ResumeParser.ExtractStructuredData takes the extracted `text` as a string, not as an arbitrary value.
- Seqs.ListSet: the order of `list(set(...))` is left open, so the model fixes no order and contracts state only order-independent facts.
- AtsRoute.CalculateAtsScore: the 400 errors raised for a blank resume or job text (backend/routes/ats_score.py:27-31) are caught by the handler's own `except Exception` and re-raised as 500 errors. They are modelled as written, as 500s.

## Findings

| source | as written | input that shows it | evidently intended | confidence | as-written member | corrected member |
|---|---|---|---|---|---|---|
| backend/routes/transform.py:201 | the skill bullet is the UTF-8 bytes of "•" read back as three characters, "â€¢ " | a job text naming "python" gives the line "â€¢ Python" | "• Python", the line `AIEngine` writes | high; not executed | Transform.MisencodedBulletsDiffer | Transform.FallbackOptimization |
| backend/routes/export.py:203-212 | `re` is never imported, so every non-empty skills value raises `NameError`; the separator class also holds a misencoded bullet ("â", "€", "¢") | the skills text "Python,SQL" | the list ["Python", "SQL"]: split on comma, semicolon, bullet or newline | high; not executed | ExportRoute.SkillsTextRaisesAsWritten | ExportRoute.ParseSkills |
| backend/routes/parse.py:16-26, 53-54 | the 400 errors for a missing name or a wrong extension are raised inside the `try` and caught by `except Exception`, so they are answered as 500 errors | an upload named "resume.txt" | status 400 "Unsupported file type. Please upload PDF or DOCX files only." | high; not executed | ParseRoute.TextFileRefusedAsServerError | ParseRoute.ParseResume |
