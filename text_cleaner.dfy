/**
 * `TextCleaner` (backend/utils/text_cleaner.py): the clean-up chains for
 * resume and job texts, keyword, skill, experience-level and education
 * extraction, watermark-line removal and the line-by-line section splitter.
 * The class holds only the constant `common_words` set, so its methods are
 * modelled as functions and methods of the module.
 */
module TextCleaner {
  import opened Seqs
  import opened Text
  import opened Patterns
  import AtsMatcher

  const CommonWords: set<string> := {
    "the", "and", "or", "but", "in", "on", "at", "to", "for", "of", "with", "by",
    "a", "an", "is", "are", "was", "were", "be", "been", "being", "have", "has",
    "had", "do", "does", "did", "will", "would", "could", "should", "may", "might",
    "can", "must", "shall", "this", "that", "these", "those", "i", "you", "he",
    "she", "it", "we", "they", "me", "him", "her", "us", "them"
  }

  // ---------------------------------------------------------------------
  // clean_resume_text and clean_job_description

  /** The punctuation the cleaning class keeps besides `\w` and `\s`. */
  const KeptPunctuation: set<char> := {
    '.', ',', ';', ':', '!', '?', '-', '(', ')', '[', ']', '{', '}', '"', '\'',
    '/', '@', '#', '$', '%', '&', '*', '+', '=', '<', '>', '|', '\\'
  }

  /** A character the special-character removal keeps. */
  predicate Kept(c: char)
  {
    IsWordChar(c) || IsSpace(c) || c in KeptPunctuation
  }

  /** The bullet characters `[•·▪▫‣⁃]`. */
  predicate IsBullet(c: char)
  {
    c == '\U{2022}' || c == '\U{00B7}' || c == '\U{25AA}' || c == '\U{25AB}' || c == '\U{2023}' || c == '\U{2043}'
  }

  /** `re.sub(r'[^\w\s...]', '', s)`: the characters outside the kept classes are dropped. */
  function DropSpecial(s: string): (r: string)
    ensures forall c :: c in r <==> c in s && Kept(c)
  {
    Filter(s, Kept)
  }

  /** `re.sub(r'[•·▪▫‣⁃]', '•', s)` */
  function NormalizeBullets(s: string): (r: string)
    ensures |r| == |s|
    ensures forall i :: 0 <= i < |s| ==> r[i] == if IsBullet(s[i]) then '\U{2022}' else s[i]
  {
    seq(|s|, i requires 0 <= i < |s| => if IsBullet(s[i]) then '\U{2022}' else s[i])
  }

  /** No bullet character is kept. */
  lemma KeptNotBullet(c: char)
    requires Kept(c)
    ensures !IsBullet(c)
  {
  }

  /** Bullets are not among the kept characters, so normalising them after the removal changes nothing. */
  lemma BulletsAlreadyGone(s: string)
    ensures NormalizeBullets(DropSpecial(s)) == DropSpecial(s)
  {
    var d := DropSpecial(s);
    forall i | 0 <= i < |d|
      ensures !IsBullet(d[i])
    {
      assert d[i] in d;
      KeptNotBullet(d[i]);
    }
  }

  /**
   * The chain shared by both cleaners: whitespace runs to one space, special
   * characters dropped, bullets normalised, ends stripped. The source's
   * `re.sub(r'\n\s*\n', '\n\n', ...)` step sits between the last two; it
   * runs on text without any newline left (see Tidy's contract) and is not
   * part of this chain.
   */
  function Tidy(s: string): string
  {
    Strip(NormalizeBullets(DropSpecial(CollapseSpace(s))))
  }

  /**
   * What the chain leaves: only kept characters, no bullet, no whitespace but
   * the plain space (so no newline), and no whitespace at either end.
   */
  lemma TidyShape(s: string)
    ensures var r := Tidy(s);
            && (forall c :: c in r ==> Kept(c) && !IsBullet(c) && (IsSpace(c) ==> c == ' '))
            && '\n' !in r
            && (r == [] || (!IsSpace(r[0]) && !IsSpace(r[|r| - 1])))
  {
    var collapsed := CollapseSpace(s);
    assert forall c :: c in collapsed && IsSpace(c) ==> c == ' ';
    var dropped := DropSpecial(collapsed);
    BulletsAlreadyGone(collapsed);
    assert Tidy(s) == Strip(dropped);
    forall c | c in Strip(dropped)
      ensures Kept(c) && !IsBullet(c) && (IsSpace(c) ==> c == ' ')
    {
      assert c in dropped;
      KeptNotBullet(c);
    }
    OnlyPlainSpaces(Strip(dropped));
  }

  /** Text whose only whitespace is the plain space has no newline. */
  lemma OnlyPlainSpaces(r: string)
    requires forall c :: c in r ==> (IsSpace(c) ==> c == ' ')
    ensures '\n' !in r
  {
    assert IsSpace('\n');
  }

  /** `clean_resume_text` */
  function CleanResumeText(text: string): (r: string)
    ensures text == [] ==> r == []
    ensures forall c :: c in r ==> Kept(c) && !IsBullet(c) && (IsSpace(c) ==> c == ' ')
    ensures '\n' !in r
    ensures r == [] || (!IsSpace(r[0]) && !IsSpace(r[|r| - 1]))
  {
    if text == [] then "" else TidyShape(text); Tidy(text)
  }

  /** A single word already made of kept characters comes back unchanged. */
  lemma CleanKeepsCleanWord(s: string)
    requires forall c :: c in s ==> Kept(c) && !IsSpace(c)
    ensures CleanResumeText(s) == s
  {
    if s != [] {
      CollapseNoSpace(s);
      FilterAll(s, Kept);
      assert DropSpecial(s) == s;
      BulletsAlreadyGone(s);
      assert s[0] in s && s[|s| - 1] in s;
      StripStripped(s);
      assert Tidy(s) == s;
    }
  }

  /** The first `>` at or after `j`. */
  function NextClose(s: string, j: nat): (r: Option<nat>)
    ensures r.Some? ==> j <= r.value < |s| && s[r.value] == '>' && forall k :: j <= k < r.value ==> s[k] != '>'
    ensures r.None? ==> forall k :: j <= k < |s| ==> s[k] != '>'
    decreases |s| - j
  {
    if j >= |s| then None else if s[j] == '>' then Some(j) else NextClose(s, j + 1)
  }

  /**
   * Where a match of `<[^>]+>` that starts at `i` ends: a `<`, at least one
   * character other than `>`, and everything up to the first `>` after it.
   */
  function TagEnd(s: string, i: nat): (r: Option<nat>)
    ensures r.Some? ==> i + 3 <= r.value <= |s| && s[i] == '<' && s[r.value - 1] == '>'
    ensures r.Some? ==> forall k :: i + 1 <= k < r.value - 1 ==> s[k] != '>'
    ensures r.None? ==> !(i + 1 < |s| && s[i] == '<' && s[i + 1] != '>' && exists k :: i + 2 <= k < |s| && s[k] == '>')
  {
    if i + 1 < |s| && s[i] == '<' && s[i + 1] != '>' then
      match NextClose(s, i + 2)
      case Some(k) => Some(k + 1)
      case None => None
    else None
  }

  /** `re.sub(r'<[^>]+>', '', s[i:])`: matches are removed left to right; other characters stay. */
  function RemoveTagsFrom(s: string, i: nat): (r: string)
    requires i <= |s|
    ensures |r| <= |s| - i
    ensures forall c :: c in r ==> c in s
    ensures (forall k :: i <= k < |s| ==> s[k] != '<') ==> r == s[i..]
    decreases |s| - i
  {
    if i == |s| then ""
    else match TagEnd(s, i)
      case Some(e) => RemoveTagsFrom(s, e)
      case None =>
        var rest := RemoveTagsFrom(s, i + 1);
        assert s[i..] == [s[i]] + s[i + 1..];
        [s[i]] + rest
  }

  /** What is left of `s[i..]` is made of characters of `s[i..]`. */
  lemma {:induction false} RemoveTagsChars(s: string, i: nat)
    requires i <= |s|
    ensures forall c :: c in RemoveTagsFrom(s, i) ==> c in s[i..]
    decreases |s| - i
  {
    if i < |s| {
      match TagEnd(s, i)
      case Some(e) =>
        RemoveTagsChars(s, e);
        assert forall c :: c in s[e..] ==> c in s[i..];
      case None =>
        RemoveTagsChars(s, i + 1);
        assert forall c :: c in s[i + 1..] ==> c in s[i..];
    }
  }

  /**
   * Removing the tags leaves no tag behind: the pattern `<[^>]+>` matches
   * nowhere in the result. A `<` that is kept is followed by `>` at once or
   * by no `>` at all, and the removals never change that.
   */
  lemma {:induction false} RemoveTagsLeaveNone(s: string, i: nat)
    requires i <= |s|
    ensures forall k :: 0 <= k < |RemoveTagsFrom(s, i)| ==> TagEnd(RemoveTagsFrom(s, i), k).None?
    decreases |s| - i
  {
    if i < |s| {
      match TagEnd(s, i)
      case Some(e) =>
        assert RemoveTagsFrom(s, i) == RemoveTagsFrom(s, e);
        RemoveTagsLeaveNone(s, e);
      case None =>
        var rest := RemoveTagsFrom(s, i + 1);
        var r := [s[i]] + rest;
        assert RemoveTagsFrom(s, i) == r;
        assert r[1..] == rest;
        RemoveTagsLeaveNone(s, i + 1);
        forall k | 0 <= k < |r|
          ensures TagEnd(r, k).None?
        {
          if k > 0 {
            assert 0 <= k - 1 < |rest|;
            assert TagEnd(rest, k - 1).None?;
            TagEndShift(r, rest, k);
          } else if s[i] == '<' && i + 1 < |s| {
            if s[i + 1] == '>' {
              assert TagEnd(s, i + 1).None?;
              assert rest == [s[i + 1]] + RemoveTagsFrom(s, i + 2);
              assert r[1] == '>';
            } else {
              assert forall m :: i + 2 <= m < |s| ==> s[m] != '>';
              assert forall m :: i + 1 <= m < |s| ==> s[m] != '>';
              RemoveTagsChars(s, i + 1);
              assert '>' !in s[i + 1..];
              assert '>' !in rest;
              assert forall m :: 1 <= m < |r| ==> r[m] != '>' by {
                forall m | 1 <= m < |r| ensures r[m] != '>' { assert r[m] == rest[m - 1]; assert rest[m - 1] in rest; }
              }
            }
          }
        }
    }
  }

  /** A match at `k > 0` of `[x] + rest` would be a match at `k - 1` of `rest`. */
  lemma TagEndShift(r: string, rest: string, k: nat)
    requires |r| == |rest| + 1 && 0 < k < |r| && r[1..] == rest
    requires TagEnd(rest, k - 1).None?
    ensures TagEnd(r, k).None?
  {
    if k + 1 < |r| && r[k] == '<' && r[k + 1] != '>' {
      assert rest[k - 1] == '<' && rest[k] != '>';
      forall m | k + 2 <= m < |r| ensures r[m] != '>' {
        assert r[m] == rest[m - 1];
      }
    }
  }

  /** `clean_job_description`: tags removed first, then the same chain as for a resume. */
  function CleanJobDescription(text: string): (r: string)
    ensures text == [] ==> r == []
    ensures forall c :: c in r ==> Kept(c) && !IsBullet(c) && (IsSpace(c) ==> c == ' ')
    ensures '\n' !in r
    ensures r == [] || (!IsSpace(r[0]) && !IsSpace(r[|r| - 1]))
  {
    if text == [] then ""
    else
      var untagged := RemoveTagsFrom(text, 0);
      TidyShape(untagged);
      Tidy(untagged)
  }

  /** Without a `<` there is no tag to remove, and the job cleaner is the resume cleaner. */
  lemma NoTagsSameCleaning(text: string)
    requires forall k :: 0 <= k < |text| ==> text[k] != '<'
    ensures CleanJobDescription(text) == CleanResumeText(text)
  {
    assert text[0..] == text;
  }

  // ---------------------------------------------------------------------
  // extract_keywords

  /** `re.sub(r'[^\w\s]', ' ', s)`: every character that is neither a word character nor whitespace becomes a space. */
  function PunctToSpace(s: string): (r: string)
    ensures |r| == |s|
    ensures forall i :: 0 <= i < |s| ==> r[i] == if IsWordChar(s[i]) || IsSpace(s[i]) then s[i] else ' '
  {
    seq(|s|, i requires 0 <= i < |s| => if IsWordChar(s[i]) || IsSpace(s[i]) then s[i] else ' ')
  }

  /** `w.isdigit()`: non-empty and made of digits. */
  predicate AllDigits(w: string)
  {
    w != [] && forall i :: 0 <= i < |w| ==> IsDigit(w[i])
  }

  /** The filter of the keyword loop. */
  predicate IsKeyword(w: string, minLength: nat)
  {
    |w| >= minLength && w !in CommonWords && !AllDigits(w)
  }

  function KeywordTest(minLength: nat): string -> bool
  {
    w => IsKeyword(w, minLength)
  }

  /** The words of the lower-cased text once punctuation is turned into spaces. */
  function CandidateWords(text: string): (r: seq<string>)
    ensures forall w :: w in r ==> w != [] && forall c :: c in w ==> IsWordChar(c) && !IsUpper(c)
  {
    var s := PunctToSpace(Lower(text));
    WordsChars(s);
    assert forall c :: c in s && !IsSpace(c) ==> IsWordChar(c) && !IsUpper(c);
    Words(s)
  }

  /** The keywords of a text: its candidate words that pass the filter, in text order. */
  function Keywords(text: string, minLength: nat): (r: seq<string>)
    ensures text == [] ==> r == []
    ensures forall w :: w in r <==> text != [] && w in CandidateWords(text) && IsKeyword(w, minLength)
    ensures forall w :: w in r ==> forall c :: c in w ==> IsWordChar(c) && !IsUpper(c)
  {
    if text == [] then [] else Filter(CandidateWords(text), KeywordTest(minLength))
  }

  /** A lower-case word on its own is its only candidate word. */
  lemma CandidateWordsOfWord(w: string)
    requires w != [] && forall c :: c in w ==> IsWordChar(c) && !IsUpper(c)
    ensures CandidateWords(w) == [w]
  {
    assert Lower(w) == w;
    assert PunctToSpace(w) == w;
    WordsOfWord(w);
  }

  /** A space between two texts separates their words: those of the first come first, in order. */
  lemma CandidateWordsAtSpace(a: string, b: string)
    ensures CandidateWords(a + " " + b) == CandidateWords(a) + CandidateWords(b)
  {
    var s := a + " " + b;
    var la := PunctToSpace(Lower(a));
    var lb := PunctToSpace(Lower(b));
    assert PunctToSpace(Lower(s)) == la + [' '] + lb;
    WordsAtSpace(la, ' ', lb);
  }

  /** The keywords keep text order: they are a subsequence of the candidate words. */
  lemma KeywordsInOrder(text: string, minLength: nat)
    ensures IsSubseq(Keywords(text, minLength), CandidateWords(text))
  {
    if text != [] {
      FilterIsSubseq(CandidateWords(text), KeywordTest(minLength));
    } else {
      assert Keywords(text, minLength) == [];
    }
  }

  /** The keywords of two non-empty texts joined by a space are those of the first, then those of the second. */
  lemma KeywordsAtSpace(a: string, b: string, minLength: nat)
    requires a != [] && b != []
    ensures Keywords(a + " " + b, minLength) == Keywords(a, minLength) + Keywords(b, minLength)
  {
    CandidateWordsAtSpace(a, b);
    FilterAppend(CandidateWords(a), CandidateWords(b), KeywordTest(minLength));
  }

  /** `extract_keywords`: the words are checked one by one and the survivors appended. */
  method ExtractKeywords(text: string, minLength: nat) returns (keywords: seq<string>)
    ensures keywords == Keywords(text, minLength)
  {
    if text == [] {
      return [];
    }
    var words := CandidateWords(text);
    var p := KeywordTest(minLength);
    keywords := [];
    for i := 0 to |words|
      invariant keywords == Filter(words[..i], p)
    {
      var word := words[i];
      FilterTakeOneMore(words, i, p);
      if IsKeyword(word, minLength) {
        keywords := keywords + [word];
      }
    }
    assert words[..|words|] == words;
  }

  /** Lower-casing twice is lower-casing once. */
  lemma LowerIdempotent(s: string)
    ensures Lower(Lower(s)) == Lower(s)
  {
  }

  /** Keyword extraction ignores case: the text and its lower-cased form have the same keywords. */
  lemma KeywordsIgnoreCase(text: string, minLength: nat)
    ensures Keywords(Lower(text), minLength) == Keywords(text, minLength)
  {
    LowerIdempotent(text);
  }

  // ---------------------------------------------------------------------
  // extract_technical_skills and extract_soft_skills

  const TechnicalSkills: seq<string> := [
    "javascript", "python", "java", "react", "node.js", "sql", "aws", "docker",
    "kubernetes", "git", "agile", "scrum", "machine learning", "data analysis",
    "html", "css", "typescript", "angular", "vue", "mongodb", "postgresql",
    "redis", "elasticsearch", "kafka", "microservices", "api", "rest", "graphql",
    "tensorflow", "pytorch", "pandas", "numpy", "scikit-learn", "jupyter",
    "jenkins", "terraform", "ansible", "linux", "bash", "powershell",
    "tableau", "power bi", "excel", "vba", "r", "matlab", "spark", "hadoop"
  ]

  const SoftSkills: seq<string> := [
    "leadership", "communication", "teamwork", "problem solving", "project management",
    "collaboration", "time management", "adaptability", "creativity", "analytical",
    "critical thinking", "attention to detail", "multitasking", "mentoring",
    "negotiation", "presentation", "writing", "research", "organization",
    "customer service", "sales", "marketing", "strategy", "innovation"
  ]

  /** The title-cased vocabulary terms occurring in `lower`, in vocabulary order. */
  function SkillTitles(vocab: seq<string>, lower: string): (r: seq<string>)
    ensures forall k :: k in r ==> exists t :: t in vocab && Contains(lower, t) && k == Title(t)
    decreases |vocab|
  {
    if vocab == [] then []
    else
      var init := vocab[..|vocab| - 1];
      var t := vocab[|vocab| - 1];
      var r := SkillTitles(init, lower);
      assert forall u :: u in init ==> u in vocab;
      r + if Contains(lower, t) then [Title(t)] else []
  }

  /** Every occurring term contributes its title. */
  lemma {:induction false} SkillTitlesComplete(vocab: seq<string>, lower: string, t: string)
    requires t in vocab && Contains(lower, t)
    ensures Title(t) in SkillTitles(vocab, lower)
    decreases |vocab|
  {
    var init := vocab[..|vocab| - 1];
    if t != vocab[|vocab| - 1] {
      assert vocab == init + [vocab[|vocab| - 1]];
      SkillTitlesComplete(init, lower, t);
    }
  }

  /**
   * The loop of `extract_technical_skills` and `extract_soft_skills` over a
   * vocabulary, then `list(set(...))`: the distinct titles of the occurring
   * terms, in an order the source leaves open.
   */
  method ExtractSkills(vocab: seq<string>, text: string) returns (skills: seq<string>)
    ensures text == [] ==> skills == []
    ensures NoDups(skills)
    ensures forall k :: k in skills <==> text != [] && k in SkillTitles(vocab, Lower(text))
  {
    if text == [] {
      return [];
    }
    var lower := Lower(text);
    var found: seq<string> := [];
    for i := 0 to |vocab|
      invariant found == SkillTitles(vocab[..i], lower)
    {
      assert vocab[..i + 1][..i] == vocab[..i];
      if Contains(lower, vocab[i]) {
        found := found + [Title(vocab[i])];
      }
    }
    assert vocab[..|vocab|] == vocab;
    skills := ListSet(set k | k in found);
  }

  /** `extract_technical_skills` */
  method ExtractTechnicalSkills(text: string) returns (skills: seq<string>)
    ensures text == [] ==> skills == []
    ensures NoDups(skills)
    ensures forall k :: k in skills <==> text != [] && k in SkillTitles(TechnicalSkills, Lower(text))
  {
    skills := ExtractSkills(TechnicalSkills, text);
  }

  /** `extract_soft_skills` */
  method ExtractSoftSkills(text: string) returns (skills: seq<string>)
    ensures text == [] ==> skills == []
    ensures NoDups(skills)
    ensures forall k :: k in skills <==> text != [] && k in SkillTitles(SoftSkills, Lower(text))
  {
    skills := ExtractSkills(SoftSkills, text);
  }

  /**
   * A term's title is found exactly when some term equal to it up to case
   * occurs; in a vocabulary written in lower case, as both are, that term is
   * the term itself.
   */
  lemma SkillFoundIff(vocab: seq<string>, lower: string, t: string)
    requires t in vocab
    ensures Title(t) in SkillTitles(vocab, lower) <==> exists u :: u in vocab && Lower(u) == Lower(t) && Contains(lower, u)
  {
    if Title(t) in SkillTitles(vocab, lower) {
      var u :| u in vocab && Contains(lower, u) && Title(t) == Title(u);
      TitleLower(t);
      TitleLower(u);
    }
    if exists u :: u in vocab && Lower(u) == Lower(t) && Contains(lower, u) {
      var u :| u in vocab && Lower(u) == Lower(t) && Contains(lower, u);
      SkillTitlesComplete(vocab, lower, u);
      TitleOfLower(t);
      TitleOfLower(u);
    }
  }

  // ---------------------------------------------------------------------
  // extract_experience_level

  const SeniorWords: seq<string> := ["senior", "lead", "principal", "architect", "director"]
  const JuniorWords: seq<string> := ["junior", "entry", "graduate", "intern"]
  const MidWords: seq<string> := ["mid-level", "intermediate", "experienced"]

  /** The level a stated number of years gives. */
  function YearsLevel(years: nat): (r: string)
    ensures r == "Senior" <==> years >= 5
    ensures r == "Junior" <==> years < 2
    ensures r == "Mid-level" <==> 2 <= years < 5
  {
    if years >= 5 then "Senior" else if years >= 2 then "Mid-level" else "Junior"
  }

  /** Seniority order of the level labels. */
  function LevelRank(level: string): nat
  {
    if level == "Junior" then 1 else if level == "Mid-level" then 2 else if level == "Senior" then 3 else 0
  }

  /** More years never give a lower level. */
  lemma YearsLevelMonotone(fewer: nat, more: nat)
    requires fewer <= more
    ensures LevelRank(YearsLevel(fewer)) <= LevelRank(YearsLevel(more))
  {
  }

  /**
   * `extract_experience_level`: the first word list with a hit decides;
   * otherwise the first `N years` phrase decides by its number. The source
   * searches `\d+\+?\s*years?` and then `(\d+)\+?\s*years?`; both find the
   * same leftmost match, so one search stands for the two, and the
   * second search's failure branch cannot be taken.
   */
  function ExperienceLevel(text: string): (r: string)
    ensures r == "Senior" || r == "Junior" || r == "Mid-level" || r == "Unknown"
    ensures var lower := Lower(text);
            r == "Unknown" <==> text == [] || (!ContainsAny(lower, SeniorWords) && !ContainsAny(lower, JuniorWords)
                                              && !ContainsAny(lower, MidWords) && SearchYears(lower, NoTail).None?)
    ensures text != [] && ContainsAny(Lower(text), SeniorWords) ==> r == "Senior"
    ensures text != [] && !ContainsAny(Lower(text), SeniorWords) && ContainsAny(Lower(text), JuniorWords) ==> r == "Junior"
    ensures (text != [] && !ContainsAny(Lower(text), SeniorWords) && !ContainsAny(Lower(text), JuniorWords)
             && ContainsAny(Lower(text), MidWords)) ==> r == "Mid-level"
  {
    if text == [] then "Unknown"
    else
      var lower := Lower(text);
      if ContainsAny(lower, SeniorWords) then "Senior"
      else if ContainsAny(lower, JuniorWords) then "Junior"
      else if ContainsAny(lower, MidWords) then "Mid-level"
      else match SearchYears(lower, NoTail)
        case Some(p) => YearsLevel(NumberAt(lower, p))
        case None => "Unknown"
  }

  /**
   * Without any level word, the level is the one the first years phrase gives,
   * and it is the number `findall` would list first.
   */
  lemma ExperienceLevelByYears(text: string)
    requires text != []
    requires var lower := Lower(text);
             !ContainsAny(lower, SeniorWords) && !ContainsAny(lower, JuniorWords) && !ContainsAny(lower, MidWords)
    ensures var found := FindYears(Lower(text), 0, NoTail);
            ExperienceLevel(text) == if found == [] then "Unknown" else YearsLevel(found[0])
  {
    FindYearsFirst(Lower(text), NoTail);
  }

  // ---------------------------------------------------------------------
  // extract_education_requirements

  /** The scorer's four labels, then `Diploma`. */
  const EducationLabels: seq<string> := AtsMatcher.EducationLabels + ["Diploma"]

  /** The scorer's four tests, then the diploma test. */
  function EducationFlags(lower: string): seq<bool>
  {
    AtsMatcher.EducationFlags(lower) + [Contains(lower, "diploma")]
  }

  /** `extract_education_requirements`: one test per label, appending in label order. */
  method ExtractEducationRequirements(text: string) returns (requirements: seq<string>)
    ensures requirements == Select(EducationLabels, EducationFlags(Lower(text)))
  {
    if text == [] {
      NoEducationInEmpty();
      return [];
    }
    var labels := AtsMatcher.EducationLabels;
    var lower := Lower(text);
    var flags := AtsMatcher.EducationFlags(lower);
    SelectFour(labels, flags);
    requirements := [];
    if flags[0] {
      requirements := requirements + ["Bachelor's Degree"];
    }
    assert requirements == Rule(flags[0], labels[0]);
    if flags[1] {
      requirements := requirements + ["Master's Degree"];
    }
    assert requirements == Rule(flags[0], labels[0]) + Rule(flags[1], labels[1]);
    if flags[2] {
      requirements := requirements + ["PhD"];
    }
    assert requirements == Rule(flags[0], labels[0]) + Rule(flags[1], labels[1]) + Rule(flags[2], labels[2]);
    if flags[3] {
      requirements := requirements + ["Certification"];
    }
    assert requirements == Select(labels, flags);
    if Contains(lower, "diploma") {
      requirements := requirements + ["Diploma"];
    }
    DiplomaLast(lower);
  }

  /** The fifth test appends after the scorer's four. */
  lemma DiplomaLast(lower: string)
    ensures Select(EducationLabels, EducationFlags(lower))
            == Select(AtsMatcher.EducationLabels, AtsMatcher.EducationFlags(lower)) + Rule(Contains(lower, "diploma"), "Diploma")
  {
    SelectSnoc(AtsMatcher.EducationLabels, AtsMatcher.EducationFlags(lower), "Diploma", Contains(lower, "diploma"));
  }

  /** The empty text mentions no degree. */
  lemma NoEducationInEmpty()
    ensures Select(EducationLabels, EducationFlags(Lower(""))) == []
  {
    var flags := AtsMatcher.EducationFlags(Lower(""));
    var d := Contains(Lower(""), "diploma");
    assert !flags[0] && !flags[1] && !flags[2] && !flags[3] && !d;
    SelectFour(AtsMatcher.EducationLabels, flags);
    SelectSnoc(AtsMatcher.EducationLabels, flags, "Diploma", d);
  }

  /** The requirements are the job-side scorer's education labels, followed by `Diploma` when the text mentions one. */
  lemma EducationExtendsScorer(text: string)
    ensures Select(EducationLabels, EducationFlags(Lower(text)))
            == AtsMatcher.Education(text) + Rule(Contains(Lower(text), "diploma"), "Diploma")
  {
    DiplomaLast(Lower(text));
  }

  /** Each of the five labels is listed exactly when its test holds, and in label order. */
  lemma EducationLabelsIff(text: string)
    ensures var r := Select(EducationLabels, EducationFlags(Lower(text)));
            IsSubseq(r, EducationLabels)
            && forall i :: 0 <= i < 5 ==> (EducationLabels[i] in r <==> EducationFlags(Lower(text))[i])
  {
    var flags := EducationFlags(Lower(text));
    SelectIsSubseq(EducationLabels, flags);
    assert NoDups(EducationLabels);
    forall i | 0 <= i < 5
      ensures EducationLabels[i] in Select(EducationLabels, flags) <==> flags[i]
    {
      SelectMember(EducationLabels, flags, i);
    }
  }

  // ---------------------------------------------------------------------
  // remove_watermarks

  const Watermarks: seq<string> := [
    "generated with", "created by", "powered by", "this document was", "confidential",
    "proprietary", "internal use only", "draft", "template", "sample"
  ]

  /** A line that mentions any boilerplate phrase, in any case. */
  predicate IsWatermark(line: string)
  {
    ContainsAny(Lower(line), Watermarks)
  }

  function KeepLine(): string -> bool
  {
    line => !IsWatermark(line)
  }

  /** The text with every watermark line dropped, the other lines joined back with newlines. */
  function Unwatermarked(text: string): (r: string)
    ensures text == [] ==> r == []
  {
    if text == [] then "" else Join(Filter(Lines(text), KeepLine()), "\n")
  }

  /** `remove_watermarks`: each line checked in turn, the survivors joined. */
  method RemoveWatermarks(text: string) returns (r: string)
    ensures r == Unwatermarked(text)
  {
    if text == [] {
      return "";
    }
    var lines := Lines(text);
    var cleaned: seq<string> := [];
    for i := 0 to |lines|
      invariant cleaned == Filter(lines[..i], KeepLine())
    {
      var line := lines[i];
      FilterTakeOneMore(lines, i, KeepLine());
      var isWatermark := ContainsAny(Lower(line), Watermarks);
      if !isWatermark {
        cleaned := cleaned + [line];
      }
    }
    assert lines[..|lines|] == lines;
    r := Join(cleaned, "\n");
  }

  /** What is left has no watermark line. */
  lemma UnwatermarkedLines(text: string)
    ensures forall line :: line in Lines(Unwatermarked(text)) ==> !IsWatermark(line)
  {
    var kept := Filter(Lines(text), KeepLine());
    if text != [] && kept != [] {
      SplitJoin(kept, '\n');
    } else {
      assert Lines("") == [""];
      assert !IsWatermark("") by {
        forall t | t in Watermarks ensures !Contains(Lower(""), t) {
          assert t != [];
        }
      }
    }
  }

  /**
   * The lines of the result are exactly the kept lines, in their order, as
   * long as some line is kept (joining no lines gives the empty text, whose
   * one line is empty).
   */
  lemma UnwatermarkedKeptLines(text: string)
    requires Filter(Lines(text), KeepLine()) != []
    ensures Lines(Unwatermarked(text)) == Filter(Lines(text), KeepLine())
  {
    if text == [] {
      assert Lines(text) == [""];
      assert !IsWatermark("") by {
        forall t | t in Watermarks ensures !Contains(Lower(""), t) {
          assert t != [];
        }
      }
      FilterAll([""], KeepLine());
      assert Join([""], "\n") == "";
    } else {
      SplitJoin(Filter(Lines(text), KeepLine()), '\n');
    }
  }

  /** Text without a watermark line comes back unchanged. */
  lemma NoWatermarkUnchanged(text: string)
    requires forall line :: line in Lines(text) ==> !IsWatermark(line)
    ensures Unwatermarked(text) == text
  {
    if text != [] {
      FilterAll(Lines(text), KeepLine());
      JoinSplit(text, '\n');
    }
  }

  /** Removing watermarks twice removes nothing more. */
  lemma UnwatermarkedIdempotent(text: string)
    ensures Unwatermarked(Unwatermarked(text)) == Unwatermarked(text)
  {
    UnwatermarkedLines(text);
    NoWatermarkUnchanged(Unwatermarked(text));
  }

  // ---------------------------------------------------------------------
  // extract_sections

  /** The section names with the words that announce them, in the order they are tried. */
  const SectionPatterns: seq<(string, seq<string>)> := [
    ("summary", ["summary", "objective", "profile", "about", "overview"]),
    ("experience", ["experience", "work history", "employment", "career", "professional experience"]),
    ("education", ["education", "academic", "qualifications", "degrees"]),
    ("skills", ["skills", "technical skills", "competencies", "abilities", "expertise"]),
    ("certifications", ["certifications", "certificates", "credentials", "licenses"]),
    ("projects", ["projects", "portfolio", "work samples"]),
    ("languages", ["languages", "language skills", "bilingual"])
  ]

  predicate IsSectionName(name: string)
  {
    exists j :: 0 <= j < |SectionPatterns| && SectionPatterns[j].0 == name
  }

  /** The first section of `patterns` one of whose words occurs in `lower`. */
  function HeadingIn(patterns: seq<(string, seq<string>)>, lower: string): (r: Option<string>)
    ensures r.Some? ==> exists j :: 0 <= j < |patterns| && patterns[j].0 == r.value && ContainsAny(lower, patterns[j].1)
    ensures r.None? ==> forall j :: 0 <= j < |patterns| ==> !ContainsAny(lower, patterns[j].1)
  {
    if patterns == [] then None
    else if ContainsAny(lower, patterns[0].1) then Some(patterns[0].0)
    else
      var r := HeadingIn(patterns[1..], lower);
      assert forall j :: 1 <= j < |patterns| ==> patterns[j] == patterns[1..][j - 1];
      r
  }

  /** The pattern tried first among those that match wins: a leftmost search over the patterns. */
  lemma {:induction false} HeadingInFirst(patterns: seq<(string, seq<string>)>, lower: string, j: nat)
    requires j < |patterns| && ContainsAny(lower, patterns[j].1)
    requires forall i :: 0 <= i < j ==> !ContainsAny(lower, patterns[i].1)
    ensures HeadingIn(patterns, lower) == Some(patterns[j].0)
  {
    if j > 0 {
      assert !ContainsAny(lower, patterns[0].1);
      assert patterns[1..][j - 1] == patterns[j];
      HeadingInFirst(patterns[1..], lower, j - 1);
    }
  }

  /** Conversely, a heading found is the first entry, in table order, one of whose words the line holds. */
  lemma {:induction false} HeadingInFound(patterns: seq<(string, seq<string>)>, lower: string)
    ensures var r := HeadingIn(patterns, lower);
            r.Some? ==> exists j :: 0 <= j < |patterns| && patterns[j].0 == r.value
                          && ContainsAny(lower, patterns[j].1)
                          && forall k :: 0 <= k < j ==> !ContainsAny(lower, patterns[k].1)
    decreases |patterns|
  {
    if patterns != [] && !ContainsAny(lower, patterns[0].1) {
      var tail := patterns[1..];
      HeadingInFound(tail, lower);
      var r := HeadingIn(tail, lower);
      if r.Some? {
        var j :| 0 <= j < |tail| && tail[j].0 == r.value && ContainsAny(lower, tail[j].1)
                 && forall k :: 0 <= k < j ==> !ContainsAny(lower, tail[k].1);
        assert patterns[j + 1] == tail[j];
        assert forall k :: 1 <= k < j + 1 ==> patterns[k] == tail[k - 1];
      }
    }
  }

  /** The section a stripped line opens, if it is a heading line. */
  function Heading(line: string): (r: Option<string>)
    ensures r.Some? ==> IsSectionName(r.value)
  {
    HeadingIn(SectionPatterns, Lower(line))
  }

  /** The loop's variables: the sections so far, the open section and its lines. */
  datatype SectionScan = SectionScan(sections: map<string, string>, current: Option<string>, content: seq<string>)

  /** `if current_section and current_content: sections[current_section] = '\n'.join(current_content)` */
  function Save(sc: SectionScan): map<string, string>
  {
    if sc.current.Some? && sc.content != [] then sc.sections[sc.current.value := Join(sc.content, "\n")]
    else sc.sections
  }

  /**
   * One line of the loop. Blank lines are skipped; a heading line saves the
   * open section and opens its own; any other line joins the open section or,
   * before the first heading, becomes the `header` entry if nothing is
   * recorded yet. The source tests `not any(section in sections for section
   * in sections)`, which holds exactly when the dictionary is empty.
   */
  function ScanStep(sc: SectionScan, line: string): SectionScan
  {
    var clean := Strip(line);
    if clean == [] then sc
    else match Heading(clean)
      case Some(name) => SectionScan(Save(sc), Some(name), [])
      case None =>
        if sc.current.Some? then sc.(content := sc.content + [clean])
        else if sc.sections == map[] then sc.(sections := map["header" := clean])
        else sc
  }

  function ScanLines(lines: seq<string>): SectionScan
    decreases |lines|
  {
    if lines == [] then SectionScan(map[], None, [])
    else ScanStep(ScanLines(lines[..|lines| - 1]), lines[|lines| - 1])
  }

  /** The sections of a text: the scan over its lines, then the last open section saved. */
  function Sections(text: string): map<string, string>
  {
    if text == [] then map[] else Save(ScanLines(Lines(text)))
  }

  /** The inner loop over the section patterns: the first whose words occur in `lower`. */
  method FindHeading(patterns: seq<(string, seq<string>)>, lower: string) returns (name: Option<string>)
    ensures name == HeadingIn(patterns, lower)
  {
    name := None;
    var j := 0;
    while j < |patterns|
      invariant j <= |patterns|
      invariant HeadingIn(patterns[j..], lower) == HeadingIn(patterns, lower)
    {
      var (sectionName, keywords) := patterns[j];
      assert patterns[j..][1..] == patterns[j + 1..];
      if ContainsAny(lower, keywords) {
        name := Some(sectionName);
        break;
      }
      j := j + 1;
    }
  }

  /** `extract_sections` */
  method ExtractSections(text: string) returns (sections: map<string, string>)
    ensures sections == Sections(text)
  {
    sections := map[];
    if text == [] {
      return;
    }
    var sc := ScanSectionLines(Lines(text));
    sections := sc.sections;
    if sc.current.Some? && sc.content != [] {
      sections := sections[sc.current.value := Join(sc.content, "\n")];
    }
  }

  /** The loop of `extract_sections` over the lines. */
  method ScanSectionLines(lines: seq<string>) returns (sc: SectionScan)
    ensures sc == ScanLines(lines)
  {
    var sections: map<string, string> := map[];
    var current: Option<string> := None;
    var content: seq<string> := [];
    for i := 0 to |lines|
      invariant SectionScan(sections, current, content) == ScanLines(lines[..i])
    {
      TakeOneMore(lines, i);
      ScanLinesSnoc(lines[..i], lines[i]);
      sections, current, content := ScanSectionLine(sections, current, content, lines[i]);
    }
    assert lines[..|lines|] == lines;
    sc := SectionScan(sections, current, content);
  }

  lemma ScanLinesSnoc(lines: seq<string>, line: string)
    ensures ScanLines(lines + [line]) == ScanStep(ScanLines(lines), line)
  {
    assert (lines + [line])[..|lines|] == lines;
  }

  /** The body of the loop for one line. */
  method ScanSectionLine(sections: map<string, string>, current: Option<string>, content: seq<string>, line: string)
    returns (sections': map<string, string>, current': Option<string>, content': seq<string>)
    ensures SectionScan(sections', current', content') == ScanStep(SectionScan(sections, current, content), line)
  {
    sections', current', content' := sections, current, content;
    var clean := Strip(line);
    if clean == [] {
      return;
    }
    var heading := FindHeading(SectionPatterns, Lower(clean));
    if heading.Some? {
      if current.Some? && content != [] {
        sections' := sections[current.value := Join(content, "\n")];
      }
      current' := heading;
      content' := [];
    } else if current.Some? {
      content' := content + [clean];
    } else if sections == map[] {
      sections' := sections["header" := clean];
    }
  }

  /** A line a section can hold: non-empty, stripped, a single line, and not a heading. */
  predicate SectionLine(line: string)
  {
    line != [] && !IsSpace(line[0]) && !IsSpace(line[|line| - 1]) && '\n' !in line && Heading(line).None?
  }

  /** A section text: every one of its lines is a section line. */
  predicate SectionText(value: string)
  {
    forall line :: line in Lines(value) ==> SectionLine(line)
  }

  /** What the scan keeps true: known keys, well-formed texts, an open section among the names, its lines well-formed. */
  predicate GoodScan(sc: SectionScan)
  {
    && (forall k :: k in sc.sections ==> (k == "header" || IsSectionName(k)) && SectionText(sc.sections[k]))
    && (sc.current.Some? ==> IsSectionName(sc.current.value))
    && (forall line :: line in sc.content ==> SectionLine(line))
  }

  /** Lines without newlines, joined by newlines, split back into the same lines. */
  lemma LinesOfJoin(lines: seq<string>)
    requires lines != [] && forall line :: line in lines ==> '\n' !in line
    ensures Lines(Join(lines, "\n")) == lines
  {
    SplitJoin(lines, '\n');
  }

  lemma SaveGood(sc: SectionScan)
    requires GoodScan(sc)
    ensures GoodScan(SectionScan(Save(sc), None, []))
  {
    if sc.current.Some? && sc.content != [] {
      LinesOfJoin(sc.content);
    }
  }

  lemma ScanStepGood(sc: SectionScan, line: string)
    requires GoodScan(sc) && '\n' !in line
    ensures GoodScan(ScanStep(sc, line))
  {
    var clean := Strip(line);
    if clean != [] {
      assert '\n' !in clean;

      if Heading(clean).Some? {
        SaveGood(sc);
      } else if sc.current.Some? {
        ContentGood(sc, clean);
      } else if sc.sections == map[] {
        HeaderGood(clean);
      }
    }
  }

  lemma ContentGood(sc: SectionScan, clean: string)
    requires GoodScan(sc) && SectionLine(clean)
    ensures GoodScan(sc.(content := sc.content + [clean]))
  {
  }

  lemma HeaderGood(clean: string)
    requires SectionLine(clean)
    ensures GoodScan(SectionScan(map["header" := clean], None, []))
  {
    LinesOfJoin([clean]);
    assert Join([clean], "\n") == clean;
  }

  lemma {:induction false} ScanLinesGood(lines: seq<string>)
    requires forall line :: line in lines ==> '\n' !in line
    ensures GoodScan(ScanLines(lines))
    decreases |lines|
  {
    if lines != [] {
      var init := lines[..|lines| - 1];
      assert forall line :: line in init ==> line in lines;
      ScanLinesGood(init);
      ScanStepGood(ScanLines(init), lines[|lines| - 1]);
    }
  }

  /**
   * Every section is keyed by a known section name or `header`, is non-empty,
   * and each of its lines is a stripped, non-blank line that is not itself a heading.
   */
  lemma SectionsWellFormed(text: string)
    ensures var r := Sections(text);
            forall k :: k in r ==> (k == "header" || IsSectionName(k)) && r[k] != [] && SectionText(r[k])
  {
    if text != [] {
      ScanLinesGood(Lines(text));
      SaveGood(ScanLines(Lines(text)));
    }
    EmptyNotSectionText();
  }

  /** The empty text has one empty line, so it is no section text. */
  lemma EmptyNotSectionText()
    ensures !SectionText("")
  {
    assert Lines("") == [""];
    assert "" in Lines("") && !SectionLine("");
  }

  /** The first non-blank line, stripped. */
  function FirstNonBlank(lines: seq<string>): (r: Option<string>)
    ensures r.Some? ==> r.value != []
    decreases |lines|
  {
    if lines == [] then None
    else match FirstNonBlank(lines[..|lines| - 1])
      case Some(first) => Some(first)
      case None => if Strip(lines[|lines| - 1]) != [] then Some(Strip(lines[|lines| - 1])) else None
  }

  function HeaderOnly(first: Option<string>): map<string, string>
  {
    match first
    case None => map[]
    case Some(line) => map["header" := line]
  }

  lemma {:induction false} NoHeadingScan(lines: seq<string>)
    requires forall line :: line in lines ==> Strip(line) == [] || Heading(Strip(line)).None?
    ensures ScanLines(lines) == SectionScan(HeaderOnly(FirstNonBlank(lines)), None, [])
    decreases |lines|
  {
    if lines != [] {
      var init := lines[..|lines| - 1];
      var last := lines[|lines| - 1];
      assert forall line :: line in init ==> line in lines;
      assert last in lines;
      NoHeadingScan(init);
      var first := FirstNonBlank(init);
      var before := SectionScan(HeaderOnly(first), None, []);
      assert ScanLines(lines) == ScanStep(before, last);
      var clean := Strip(last);
      if clean == [] {
        assert ScanStep(before, last) == before;
      } else {
        assert Heading(clean) == None;
        if first.None? {
          assert ScanStep(before, last) == SectionScan(map["header" := clean], None, []);
        } else {
          assert ScanStep(before, last) == before;
        }
      }
    }
  }

  /** A text without heading lines has only a `header` entry, its first non-blank line, or nothing. */
  lemma NoHeadingSections(text: string)
    requires forall line :: line in Lines(text) ==> Strip(line) == [] || Heading(Strip(line)).None?
    ensures Sections(text) == HeaderOnly(FirstNonBlank(Lines(text)))
  {
    if text != [] {
      NoHeadingScan(Lines(text));
    } else {
      assert Lines(text) == [""];
      assert FirstNonBlank([""][..0]) == None;
    }
  }

  /** `header` is none of the section names, so saving a section never touches it. */
  lemma HeaderNotSectionName()
    ensures !IsSectionName("header")
  {
    forall j | 0 <= j < |SectionPatterns|
      ensures SectionPatterns[j].0 != "header"
    {
      assert SectionPatterns[j].0[0] != 'h';
    }
  }

  /** One more line after `lines`: the first non-blank line is the old one, or this one stripped. */
  lemma FirstNonBlankSnoc(lines: seq<string>, line: string)
    ensures FirstNonBlank(lines + [line])
            == if FirstNonBlank(lines).Some? then FirstNonBlank(lines)
               else if Strip(line) != [] then Some(Strip(line)) else None
  {
    assert (lines + [line])[..|lines|] == lines;
  }

  /**
   * The `header` rule as the scan keeps it: before the first heading the
   * sections hold at most the first non-blank line as `header`; once a
   * section is open, `header` is there exactly when that first line was no
   * heading, and then holds it.
   */
  ghost predicate HeaderRule(lines: seq<string>, sc: SectionScan)
  {
    var first := FirstNonBlank(lines);
    && (sc.current.None? ==> sc.sections == HeaderOnly(first) && (first.Some? ==> Heading(first.value).None?))
    && (sc.current.Some? ==>
          && IsSectionName(sc.current.value) && first.Some?
          && ("header" in sc.sections <==> Heading(first.value).None?)
          && ("header" in sc.sections ==> sc.sections["header"] == first.value))
  }

  lemma HeaderRuleStep(lines: seq<string>, sc: SectionScan, line: string)
    requires HeaderRule(lines, sc)
    ensures HeaderRule(lines + [line], ScanStep(sc, line))
  {
    FirstNonBlankSnoc(lines, line);
    var clean := Strip(line);
    if clean == [] {
      assert ScanStep(sc, line) == sc;
    } else if Heading(clean).Some? {
      SaveKeepsHeader(sc);
      assert ScanStep(sc, line) == SectionScan(Save(sc), Heading(clean), []);
    } else if sc.current.Some? {
      assert ScanStep(sc, line) == sc.(content := sc.content + [clean]);
    } else if sc.sections == map[] {
      assert ScanStep(sc, line) == sc.(sections := map["header" := clean]);
    } else {
      assert ScanStep(sc, line) == sc;
    }
  }

  /** Saving the open section leaves the `header` entry as it was. */
  lemma SaveKeepsHeader(sc: SectionScan)
    requires sc.current.Some? ==> IsSectionName(sc.current.value)
    ensures "header" in Save(sc) <==> "header" in sc.sections
    ensures "header" in sc.sections ==> Save(sc)["header"] == sc.sections["header"]
  {
    if sc.current.Some? && sc.content != [] {
      HeaderNotSectionName();
      assert sc.current.value != "header";
    }
  }

  lemma {:induction false} ScanLinesHeader(lines: seq<string>)
    ensures HeaderRule(lines, ScanLines(lines))
    decreases |lines|
  {
    if lines != [] {
      var init := lines[..|lines| - 1];
      ScanLinesHeader(init);
      HeaderRuleStep(init, ScanLines(init), lines[|lines| - 1]);
      assert init + [lines[|lines| - 1]] == lines;
    }
  }

  /**
   * The `header` entry: present exactly when the first non-blank line of the
   * text is not a heading, and then that line, stripped. Every later line
   * before the first heading is dropped.
   */
  lemma HeaderEntry(text: string)
    ensures var first := FirstNonBlank(Lines(text));
            && ("header" in Sections(text) <==> first.Some? && Heading(first.value).None?)
            && ("header" in Sections(text) ==> Sections(text)["header"] == first.value)
  {
    if text == [] {
      assert Lines(text) == [""];
      assert FirstNonBlank([""][..0]) == None;
    } else {
      var sc := ScanLines(Lines(text));
      ScanLinesHeader(Lines(text));
      HeaderNotSectionName();
      if sc.current.Some? {
        assert sc.current.value != "header";
      }
    }
  }

  /** A non-empty tail split off its last element. */
  lemma SplitLast<T>(xs: seq<T>, ys: seq<T>)
    requires ys != []
    ensures ys == ys[..|ys| - 1] + [ys[|ys| - 1]]
    ensures xs + ys == (xs + ys[..|ys| - 1]) + [ys[|ys| - 1]]
  {
    assert ys == ys[..|ys| - 1] + [ys[|ys| - 1]];
  }

  /** The open section after `heading` and the lines that follow it, none a heading nor blank. */
  lemma {:induction false} ScanSectionBody(before: seq<string>, heading: string, body: seq<string>, name: string)
    requires Heading(Strip(heading)) == Some(name) && Strip(heading) != []
    requires forall line :: line in body ==> Strip(line) != [] && Heading(Strip(line)).None?
    ensures var sc := ScanLines(before + [heading] + body);
            sc.current == Some(name) && sc.content == StripAll(body)
            && sc.sections == Save(ScanLines(before))
    decreases |body|
  {
    if body == [] {
      assert before + [heading] + body == before + [heading];
      ScanLinesSnoc(before, heading);
      assert StripAll(body) == [];
    } else {
      var init := body[..|body| - 1];
      var last := body[|body| - 1];
      SplitLast(before + [heading], body);
      assert last in body && forall line :: line in init ==> line in body;
      ScanSectionBody(before, heading, init, name);
      ScanLinesSnoc(before + [heading] + init, last);
      StripAllSnoc(init, last);
    }
  }

  /**
   * The last occurrence of a section wins: a heading followed by non-blank,
   * non-heading lines to the end of the text leaves that section holding
   * those lines, stripped and joined by newlines, whatever came before it,
   * including an earlier section of the same name.
   */
  lemma LastSectionWins(text: string, before: seq<string>, heading: string, body: seq<string>, name: string)
    requires Lines(text) == before + [heading] + body
    requires Heading(Strip(heading)) == Some(name) && Strip(heading) != []
    requires body != [] && forall line :: line in body ==> Strip(line) != [] && Heading(Strip(line)).None?
    ensures name in Sections(text) && Sections(text)[name] == Join(StripAll(body), "\n")
  {
    if text == [] {
      assert false;
    }
    ScanSectionBody(before, heading, body, name);
    var sc := ScanLines(Lines(text));
    assert Sections(text) == Save(sc);
    assert sc.content == StripAll(body) != [];
  }
}
