/**
 * The `ResumeParser` class of backend/utils/parser_pdf_docx.py: the choice
 * of parser by file extension, and the line-based heuristics that turn a
 * resume's plain text into structured data (the name line, the sections,
 * the skills, the work experience entries and the education entries). The
 * PDF and DOCX text extraction itself is not part of this model.
 */
module ResumeParser {
  import opened Seqs
  import opened Text
  import TextCleaner
  import PyValues
  import Patterns

  // ---------------------------------------------------------------------
  // parse_resume

  /** The two parsers the class can hand a file to. */
  datatype Format = Pdf | Docx

  datatype Result<T> = Ok(value: T) | Err(message: string)

  /** `filename.lower().split('.')[-1]`: the last dot-separated piece of the lower-cased name. */
  function Extension(filename: string): (r: string)
    ensures '.' !in r
  {
    var pieces := Split(Lower(filename), {'.'});
    assert NoneOf(pieces[|pieces| - 1], {'.'});
    pieces[|pieces| - 1]
  }

  /**
   * `parse_resume`'s dispatch: "pdf" goes to the PDF parser, "docx" and
   * "doc" to the DOCX parser, and any other extension raises, the message
   * wrapped by the method's own handler.
   */
  function Dispatch(filename: string): (r: Result<Format>)
    ensures r == Ok(Pdf) <==> Extension(filename) == "pdf"
    ensures r == Ok(Docx) <==> Extension(filename) == "docx" || Extension(filename) == "doc"
    ensures r.Err? <==> Extension(filename) != "pdf" && Extension(filename) != "docx" && Extension(filename) != "doc"
    ensures r.Err? ==> r.message == "Resume parsing failed: " + "Unsupported file format: " + Extension(filename)
  {
    var ext := Extension(filename);
    if ext == "pdf" then Ok(Pdf)
    else if ext == "docx" || ext == "doc" then Ok(Docx)
    else Err("Resume parsing failed: " + "Unsupported file format: " + ext)
  }

  /**
   * The extension is whatever follows the last dot, lower-cased, whatever
   * the name before it: "CV.v2.PDF" is a PDF.
   */
  lemma ExtensionAfterLastDot(base: string, ext: string)
    requires '.' !in ext
    ensures Extension(base + "." + ext) == Lower(ext)
  {
    LowerAppend(base + ".", ext);
    LowerAppend(base, ".");
    assert Lower(base + "." + ext) == Lower(base) + ['.'] + Lower(ext);
    SplitAtSep(Lower(base), '.', Lower(ext), {'.'});
    assert NoneOf(Lower(ext), {'.'}) by {
      forall i | 0 <= i < |ext| ensures Lower(ext)[i] != '.' {
        assert ext[i] in ext;
      }
    }
    SplitWhole(Lower(ext), {'.'});
  }

  /** A name without a dot is its own extension: "pdf" alone is dispatched as a PDF. */
  lemma NoDotWholeName(filename: string)
    requires '.' !in filename
    ensures Extension(filename) == Lower(filename)
  {
    assert NoneOf(Lower(filename), {'.'}) by {
      forall i | 0 <= i < |filename| ensures Lower(filename)[i] != '.' {
        assert filename[i] in filename;
      }
    }
    SplitWhole(Lower(filename), {'.'});
  }

  // ---------------------------------------------------------------------
  // extract_contact_info: the name rule

  /**
   * The name: the stripped first line when it has at most three
   * whitespace-separated words, and the empty text otherwise.
   */
  function ContactName(text: string): (r: string)
    ensures r == [] || r == Strip(Lines(text)[0])
    ensures |Words(Strip(Lines(text)[0]))| <= 3 ==> r == Strip(Lines(text)[0])
    ensures |Words(r)| <= 3 && '\n' !in r
  {
    var first := Strip(Lines(text)[0]);
    assert '\n' !in first by { assert Lines(text)[0] in Lines(text); }
    if |Words(first)| <= 3 then first else ""
  }

  // ---------------------------------------------------------------------
  // extract_sections

  /** The parser's own section table: seven names with shorter word lists than the cleaner's. */
  const SectionPatterns: seq<(string, seq<string>)> := [
    ("summary", ["summary", "objective", "profile", "about"]),
    ("experience", ["experience", "work history", "employment", "career"]),
    ("education", ["education", "academic", "qualifications"]),
    ("skills", ["skills", "technical skills", "competencies"]),
    ("certifications", ["certifications", "certificates"]),
    ("projects", ["projects", "portfolio"]),
    ("languages", ["languages", "language skills"])
  ]

  predicate IsSectionName(name: string)
  {
    exists j :: 0 <= j < |SectionPatterns| && SectionPatterns[j].0 == name
  }

  /** The section a stripped line opens, if any. */
  function Heading(line: string): (r: Option<string>)
    ensures r.Some? ==> IsSectionName(r.value)
  {
    TextCleaner.HeadingIn(SectionPatterns, Lower(line))
  }

  /** A line opens the first section of the parser's table, in table order, one of whose words it contains. */
  lemma HeadingFirst(line: string, j: nat)
    requires j < |SectionPatterns| && ContainsAny(Lower(line), SectionPatterns[j].1)
    requires forall k :: 0 <= k < j ==> !ContainsAny(Lower(line), SectionPatterns[k].1)
    ensures Heading(line) == Some(SectionPatterns[j].0)
  {
    TextCleaner.HeadingInFirst(SectionPatterns, Lower(line), j);
  }

  /** The scan of one line. Blank lines are skipped; a heading saves the open section and opens its own; other lines join the open section, if there is one, and are dropped otherwise. */
  function ScanStep(sc: TextCleaner.SectionScan, line: string): TextCleaner.SectionScan
  {
    var clean := Strip(line);
    if clean == [] then sc
    else match Heading(clean)
      case Some(name) => TextCleaner.SectionScan(TextCleaner.Save(sc), Some(name), [])
      case None => if sc.current.Some? then sc.(content := sc.content + [clean]) else sc
  }

  /** The scan from state `sc` over `lines`. */
  function ScanFrom(sc: TextCleaner.SectionScan, lines: seq<string>): TextCleaner.SectionScan
    decreases |lines|
  {
    if lines == [] then sc
    else ScanStep(ScanFrom(sc, lines[..|lines| - 1]), lines[|lines| - 1])
  }

  const NoSection := TextCleaner.SectionScan(map[], None, [])

  /** The sections of a text: the scan over its lines, then the last open section saved. */
  function Sections(text: string): map<string, string>
  {
    TextCleaner.Save(ScanFrom(NoSection, Lines(text)))
  }

  /** `extract_sections` */
  method ExtractSections(text: string) returns (sections: map<string, string>)
    ensures sections == Sections(text)
  {
    sections := ScanSectionLines(Lines(text));
  }

  /** The loop of `extract_sections` over the lines, then the last open section saved. */
  method ScanSectionLines(lines: seq<string>) returns (saved: map<string, string>)
    ensures saved == TextCleaner.Save(ScanFrom(NoSection, lines))
  {
    var sections: map<string, string> := map[];
    var current: Option<string> := None;
    var content: seq<string> := [];
    for i := 0 to |lines|
      invariant TextCleaner.SectionScan(sections, current, content) == ScanFrom(NoSection, lines[..i])
    {
      TakeOneMore(lines, i);
      ScanFromSnoc(lines[..i], lines[i]);
      sections, current, content := ScanSectionLine(sections, current, content, lines[i]);
    }
    assert lines[..|lines|] == lines;
    saved := TextCleaner.Save(TextCleaner.SectionScan(sections, current, content));
  }

  lemma ScanFromSnoc(lines: seq<string>, line: string)
    ensures ScanFrom(NoSection, lines + [line]) == ScanStep(ScanFrom(NoSection, lines), line)
  {
    assert (lines + [line])[..|lines|] == lines;
  }

  /** The body of the loop for one line. */
  method ScanSectionLine(sections: map<string, string>, current: Option<string>, content: seq<string>, line: string)
    returns (sections': map<string, string>, current': Option<string>, content': seq<string>)
    ensures TextCleaner.SectionScan(sections', current', content')
         == ScanStep(TextCleaner.SectionScan(sections, current, content), line)
  {
    sections', current', content' := sections, current, content;
    var clean := Strip(line);
    if clean == [] {
      return;
    }
    var heading := TextCleaner.FindHeading(SectionPatterns, Lower(clean));
    if heading.Some? {
      if current.Some? && content != [] {
        sections' := sections[current.value := Join(content, "\n")];
      }
      current' := heading;
      content' := [];
    } else if current.Some? {
      content' := content + [clean];
    }
  }

  /** A line a section can hold: non-empty, a single line, and not a heading. */
  predicate SectionLine(line: string)
  {
    line != [] && '\n' !in line && Heading(line).None?
  }

  predicate SectionText(value: string)
  {
    forall line :: line in Lines(value) ==> SectionLine(line)
  }

  predicate GoodScan(sc: TextCleaner.SectionScan)
  {
    && (forall k :: k in sc.sections ==> IsSectionName(k) && SectionText(sc.sections[k]))
    && (sc.current.Some? ==> IsSectionName(sc.current.value))
    && (forall line :: line in sc.content ==> SectionLine(line))
  }

  lemma SaveGood(sc: TextCleaner.SectionScan)
    requires GoodScan(sc)
    ensures GoodScan(TextCleaner.SectionScan(TextCleaner.Save(sc), None, []))
  {
    if sc.current.Some? && sc.content != [] {
      TextCleaner.LinesOfJoin(sc.content);
    }
  }

  lemma ScanStepGood(sc: TextCleaner.SectionScan, line: string)
    requires GoodScan(sc) && '\n' !in line
    ensures GoodScan(ScanStep(sc, line))
  {
    var clean := Strip(line);
    if clean != [] {
      assert '\n' !in clean;
      match Heading(clean)
      case Some(name) =>
        OpenGood(sc, name);
      case None =>
        if sc.current.Some? {
          AppendGood(sc, clean);
        }
    }
  }

  lemma OpenGood(sc: TextCleaner.SectionScan, name: string)
    requires GoodScan(sc) && IsSectionName(name)
    ensures GoodScan(TextCleaner.SectionScan(TextCleaner.Save(sc), Some(name), []))
  {
    SaveGood(sc);
  }

  lemma AppendGood(sc: TextCleaner.SectionScan, clean: string)
    requires GoodScan(sc) && SectionLine(clean)
    ensures GoodScan(sc.(content := sc.content + [clean]))
  {
  }

  lemma {:induction false} ScanFromGood(lines: seq<string>)
    requires forall line :: line in lines ==> '\n' !in line
    ensures GoodScan(ScanFrom(NoSection, lines))
    decreases |lines|
  {
    if lines != [] {
      var init := lines[..|lines| - 1];
      assert forall line :: line in init ==> line in lines;
      ScanFromGood(init);
      ScanStepGood(ScanFrom(NoSection, init), lines[|lines| - 1]);
    }
  }

  /**
   * Every key is one of the seven section names (there is no `header`
   * entry), every value is non-empty, and each of its lines is a stripped,
   * non-blank line that is not itself a heading.
   */
  lemma SectionsWellFormed(text: string)
    ensures var r := Sections(text);
            forall k :: k in r ==> IsSectionName(k) && r[k] != [] && SectionText(r[k])
  {
    ScanFromGood(Lines(text));
    SaveGood(ScanFrom(NoSection, Lines(text)));
    assert !SectionText("") by {
      assert Lines("") == [""];
      assert "" in Lines("") && !SectionLine("");
    }
  }

  /** Scanning two runs of lines is scanning the second from where the first left off. */
  lemma {:induction false} ScanFromAppend(sc: TextCleaner.SectionScan, xs: seq<string>, ys: seq<string>)
    ensures ScanFrom(sc, xs + ys) == ScanFrom(ScanFrom(sc, xs), ys)
    decreases |ys|
  {
    if ys == [] {
      assert xs + ys == xs;
    } else {
      var init := ys[..|ys| - 1];
      assert (xs + ys)[..|xs + ys| - 1] == xs + init;
      ScanFromAppend(sc, xs, init);
    }
  }

  /** Before any heading the scan keeps nothing. */
  lemma {:induction false} NoHeadingNothing(lines: seq<string>)
    requires forall line :: line in lines ==> Strip(line) == [] || Heading(Strip(line)).None?
    ensures ScanFrom(NoSection, lines) == NoSection
    decreases |lines|
  {
    if lines != [] {
      var init := lines[..|lines| - 1];
      assert forall line :: line in init ==> line in lines;
      assert lines[|lines| - 1] in lines;
      NoHeadingNothing(init);
    }
  }

  /** Lines before the first heading are dropped: they change nothing in what follows. */
  lemma LeadingLinesDropped(before: seq<string>, after: seq<string>)
    requires forall line :: line in before ==> Strip(line) == [] || Heading(Strip(line)).None?
    ensures ScanFrom(NoSection, before + after) == ScanFrom(NoSection, after)
  {
    ScanFromAppend(NoSection, before, after);
    NoHeadingNothing(before);
  }

  /** A text without heading lines has no sections at all. */
  lemma NoHeadingNoSections(text: string)
    requires forall line :: line in Lines(text) ==> Strip(line) == [] || Heading(Strip(line)).None?
    ensures Sections(text) == map[]
  {
    NoHeadingNothing(Lines(text));
  }

  // ---------------------------------------------------------------------
  // extract_skills

  /** The parser's own skill list: the engine's fourteen terms and seven more. */
  const SkillTerms: seq<string> := [
    "javascript", "python", "java", "react", "node.js", "sql", "aws", "docker",
    "kubernetes", "git", "agile", "scrum", "machine learning", "data analysis",
    "html", "css", "typescript", "angular", "vue", "mongodb", "postgresql"
  ]

  /**
   * `extract_skills`: the title-cased terms occurring in the lower-cased
   * text, each once, in an order the source leaves open (`list(set(...))`).
   */
  method ExtractSkills(text: string) returns (skills: seq<string>)
    ensures NoDups(skills)
    ensures forall k :: k in skills <==> k in TextCleaner.SkillTitles(SkillTerms, Lower(text))
    ensures forall k :: k in skills ==> exists t :: t in SkillTerms && Contains(Lower(text), t) && k == Title(t)
    ensures forall t :: t in SkillTerms && Contains(Lower(text), t) ==> Title(t) in skills
  {
    var lower := Lower(text);
    var found: seq<string> := [];
    for i := 0 to |SkillTerms|
      invariant found == TextCleaner.SkillTitles(SkillTerms[..i], lower)
    {
      assert SkillTerms[..i + 1][..i] == SkillTerms[..i];
      if Contains(lower, SkillTerms[i]) {
        found := found + [Title(SkillTerms[i])];
      }
    }
    assert SkillTerms[..|SkillTerms|] == SkillTerms;
    skills := ListSet(set k | k in found);
    forall t | t in SkillTerms && Contains(lower, t)
      ensures Title(t) in skills
    {
      TextCleaner.SkillTitlesComplete(SkillTerms, lower, t);
    }
  }

  // ---------------------------------------------------------------------
  // The section cut shared by extract_experience and extract_education

  /**
   * The cut's variables: whether a start line has been seen, whether a stop
   * line ended the loop, and the stripped lines kept so far.
   */
  datatype Cut = Cut(inside: bool, done: bool, kept: seq<string>)

  const NoCut := Cut(false, false, [])

  /**
   * One line of the cut. A line with a start word (re)opens the section and
   * is not kept; inside the section, a non-blank line with a stop word ends
   * the loop, and any other non-blank line is kept.
   */
  function CutStep(st: Cut, line: string, start: seq<string>, stop: seq<string>): Cut
  {
    var clean := Strip(line);
    if ContainsAny(Lower(clean), start) then st.(inside := true)
    else if st.inside && clean != [] then
      if ContainsAny(Lower(clean), stop) then st.(done := true) else st.(kept := st.kept + [clean])
    else st
  }

  function CutFrom(st: Cut, lines: seq<string>, start: seq<string>, stop: seq<string>): Cut
    decreases |lines|
  {
    if st.done || lines == [] then st
    else CutFrom(CutStep(st, lines[0], start, stop), lines[1..], start, stop)
  }

  /** The lines the cut keeps from a text. */
  function SectionLines(text: string, start: seq<string>, stop: seq<string>): seq<string>
  {
    CutFrom(NoCut, Lines(text), start, stop).kept
  }

  /** `"".join(x + "\n" for x in xs)`: the text the loop accumulates. */
  function Terminated(xs: seq<string>): string
    decreases |xs|
  {
    if xs == [] then "" else xs[0] + "\n" + Terminated(xs[1..])
  }

  lemma {:induction false} TerminatedSnoc(xs: seq<string>, x: string)
    ensures Terminated(xs + [x]) == Terminated(xs) + x + "\n"
    decreases |xs|
  {
    if xs == [] {
      assert [] + [x] == [x];
      assert [x][1..] == [];
    } else {
      assert (xs + [x])[1..] == xs[1..] + [x];
      TerminatedSnoc(xs[1..], x);
      AppendAssoc(xs[0] + "\n", Terminated(xs[1..]), x + "\n");
      AppendAssoc(xs[0] + "\n" + Terminated(xs[1..]), x, "\n");
      AppendAssoc(xs[0] + "\n" + Terminated(xs[1..]) + x, "\n", []);
      assert Terminated(xs[1..]) + x + "\n" == Terminated(xs[1..]) + (x + "\n");
    }
  }

  /** The accumulated text is the kept lines joined by newlines, with one more newline at the end. */
  lemma {:induction false} TerminatedJoin(xs: seq<string>)
    ensures Terminated(xs) == Join(xs + [""], "\n")
    decreases |xs|
  {
    if xs == [] {
      assert [] + [""] == [""];
    } else {
      TerminatedJoin(xs[1..]);
      assert (xs + [""])[1..] == xs[1..] + [""];
      assert Join(xs + [""], "\n") == xs[0] + "\n" + Join(xs[1..] + [""], "\n");
    }
  }

  /** Splitting the accumulated text into lines gives the kept lines and one empty line. */
  lemma TerminatedLines(xs: seq<string>)
    requires forall x :: x in xs ==> '\n' !in x
    ensures Lines(Terminated(xs)) == xs + [""]
  {
    TerminatedJoin(xs);
    SplitJoin(xs + [""], '\n');
  }

  /** The loop of the cut, with its `break`. */
  method CutSection(text: string, start: seq<string>, stop: seq<string>) returns (section: string)
    ensures section == Terminated(SectionLines(text, start, stop))
  {
    var lines := Lines(text);
    var inside := false;
    section := "";
    ghost var kept: seq<string> := [];
    var i := 0;
    while i < |lines|
      invariant i <= |lines|
      invariant section == Terminated(kept)
      invariant CutFrom(Cut(inside, false, kept), lines[i..], start, stop) == CutFrom(NoCut, lines, start, stop)
    {
      assert lines[i..][0] == lines[i] && lines[i..][1..] == lines[i + 1..];
      var clean := Strip(lines[i]);
      if ContainsAny(Lower(clean), start) {
        inside := true;
      } else if inside && clean != [] {
        if ContainsAny(Lower(clean), stop) {
          assert CutFrom(Cut(inside, true, kept), lines[i + 1..], start, stop) == Cut(inside, true, kept);
          return;
        }
        TerminatedSnoc(kept, clean);
        section := section + clean + "\n";
        kept := kept + [clean];
      }
      i := i + 1;
    }
  }

  /** A line as the cut keeps it: stripped, non-blank, on one line, and free of start and stop words. */
  predicate KeptLine(line: string, start: seq<string>, stop: seq<string>)
  {
    && line != [] && Strip(line) == line && '\n' !in line
    && !ContainsAny(Lower(line), start) && !ContainsAny(Lower(line), stop)
  }

  lemma CutStepKept(st: Cut, line: string, start: seq<string>, stop: seq<string>)
    requires forall x :: x in st.kept ==> KeptLine(x, start, stop)
    requires '\n' !in line
    ensures forall x :: x in CutStep(st, line, start, stop).kept ==> KeptLine(x, start, stop)
  {
    var clean := Strip(line);
    var next := CutStep(st, line, start, stop);
    if next.kept != st.kept {
      assert next.kept == st.kept + [clean];
      StripStripped(clean);
      assert KeptLine(clean, start, stop);
    }
  }

  lemma {:induction false} CutKeptLines(st: Cut, lines: seq<string>, start: seq<string>, stop: seq<string>)
    requires forall x :: x in st.kept ==> KeptLine(x, start, stop)
    requires forall line :: line in lines ==> '\n' !in line
    ensures forall x :: x in CutFrom(st, lines, start, stop).kept ==> KeptLine(x, start, stop)
    decreases |lines|
  {
    if !st.done && lines != [] {
      assert lines[0] in lines;
      CutStepKept(st, lines[0], start, stop);
      assert forall line :: line in lines[1..] ==> line in lines;
      CutKeptLines(CutStep(st, lines[0], start, stop), lines[1..], start, stop);
    }
  }

  /** Every line of a cut section is a kept line: in particular none holds a stop word. */
  lemma SectionLinesKept(text: string, start: seq<string>, stop: seq<string>)
    ensures forall x :: x in SectionLines(text, start, stop) ==> KeptLine(x, start, stop)
  {
    CutKeptLines(NoCut, Lines(text), start, stop);
  }

  /** Cutting two runs of lines is cutting the second from where the first left off. */
  lemma {:induction false} CutFromAppend(st: Cut, xs: seq<string>, ys: seq<string>, start: seq<string>, stop: seq<string>)
    ensures CutFrom(st, xs + ys, start, stop) == CutFrom(CutFrom(st, xs, start, stop), ys, start, stop)
    decreases |xs|
  {
    if xs == [] {
      assert xs + ys == ys;
    } else if !st.done {
      assert (xs + ys)[0] == xs[0] && (xs + ys)[1..] == xs[1..] + ys;
      CutFromAppend(CutStep(st, xs[0], start, stop), xs[1..], ys, start, stop);
    }
  }

  /**
   * Inside the section, the first non-blank line with a stop word (and no
   * start word) ends it: nothing after that line is kept.
   */
  lemma SectionEndsAtStop(before: seq<string>, line: string, after: seq<string>, start: seq<string>, stop: seq<string>)
    requires CutFrom(NoCut, before, start, stop).inside && !CutFrom(NoCut, before, start, stop).done
    requires Strip(line) != [] && !ContainsAny(Lower(Strip(line)), start) && ContainsAny(Lower(Strip(line)), stop)
    ensures CutFrom(NoCut, before + [line] + after, start, stop).kept == CutFrom(NoCut, before, start, stop).kept
  {
    var rest := [line] + after;
    CutFromAppend(NoCut, before, rest, start, stop);
    assert before + [line] + after == before + rest;
    StopLineEnds(CutFrom(NoCut, before, start, stop), line, after, start, stop);
  }

  lemma StopLineEnds(st: Cut, line: string, after: seq<string>, start: seq<string>, stop: seq<string>)
    requires st.inside && !st.done
    requires Strip(line) != [] && !ContainsAny(Lower(Strip(line)), start) && ContainsAny(Lower(Strip(line)), stop)
    ensures CutFrom(st, [line] + after, start, stop) == st.(done := true)
  {
    var rest := [line] + after;
    assert rest[0] == line && rest[1..] == after;
    assert CutStep(st, line, start, stop) == st.(done := true);
  }

  /** A text with no start line has an empty section. */
  lemma {:induction false} NoStartNoSection(st: Cut, lines: seq<string>, start: seq<string>, stop: seq<string>)
    requires !st.inside && st.kept == []
    requires forall line :: line in lines ==> !ContainsAny(Lower(Strip(line)), start)
    ensures CutFrom(st, lines, start, stop).kept == []
    decreases |lines|
  {
    if !st.done && lines != [] {
      assert lines[0] in lines;
      assert forall line :: line in lines[1..] ==> line in lines;
      NoStartNoSection(CutStep(st, lines[0], start, stop), lines[1..], start, stop);
    }
  }

  // ---------------------------------------------------------------------
  // extract_experience

  const ExperienceStart: seq<string> := ["experience", "work history", "employment"]
  const ExperienceStop: seq<string> := ["education", "skills", "certifications"]
  const TitleWords: seq<string> := ["engineer", "developer", "manager", "analyst", "specialist"]

  /** An experience entry: the `current_job` dictionary's four fields. */
  datatype Job = Job(title: string, company: string, duration: string, description: string)

  /** The entry loop's variables: the entries pushed so far and the open one, if any. */
  datatype JobScan = JobScan(jobs: seq<Job>, current: Option<Job>)

  predicate IsTitleLine(line: string)
  {
    ContainsAny(Lower(line), TitleWords)
  }

  /** `if current_job: experience.append(current_job)` */
  function Flush(sc: JobScan): seq<Job>
  {
    match sc.current
    case None => sc.jobs
    case Some(job) => sc.jobs + [job]
  }

  /**
   * One line of the entry loop. A title line pushes the open entry and opens
   * a new one; with an entry open, the first other line is its company, then
   * a line with a digit replaces the duration and any other line is added to
   * the description with a trailing space. Lines before the first title are
   * dropped.
   */
  function JobStep(sc: JobScan, line: string): JobScan
  {
    var clean := Strip(line);
    if clean == [] then sc
    else if IsTitleLine(clean) then JobScan(Flush(sc), Some(Job(clean, "", "", "")))
    else match sc.current
      case None => sc
      case Some(job) =>
        if job.company == [] then sc.(current := Some(job.(company := clean)))
        else if Patterns.HasDigit(clean) then sc.(current := Some(job.(duration := clean)))
        else sc.(current := Some(job.(description := job.description + clean + " ")))
  }

  function ScanJobs(lines: seq<string>): JobScan
    decreases |lines|
  {
    if lines == [] then JobScan([], None)
    else JobStep(ScanJobs(lines[..|lines| - 1]), lines[|lines| - 1])
  }

  /** The entries of a run of lines: the scan, then the open entry pushed. */
  function Entries(lines: seq<string>): seq<Job>
  {
    Flush(ScanJobs(lines))
  }

  /** The experience entries of a text: the entries of its cut experience section, none when that is empty. */
  function Experience(text: string): seq<Job>
  {
    var section := Terminated(SectionLines(text, ExperienceStart, ExperienceStop));
    if section == [] then [] else Entries(Lines(section))
  }

  /** The entry loop over the lines of the cut section. */
  method ScanEntries(lines: seq<string>) returns (experience: seq<Job>)
    ensures experience == Entries(lines)
  {
    experience := [];
    var current: Option<Job> := None;
    for i := 0 to |lines|
      invariant JobScan(experience, current) == ScanJobs(lines[..i])
    {
      assert lines[..i + 1][..i] == lines[..i];
      var clean := Strip(lines[i]);
      if clean == [] {
        continue;
      }
      if IsTitleLine(clean) {
        if current.Some? {
          experience := experience + [current.value];
        }
        current := Some(Job(clean, "", "", ""));
      } else if current.Some? && current.value.company == [] {
        current := Some(current.value.(company := clean));
      } else if current.Some? && Patterns.HasDigit(clean) {
        current := Some(current.value.(duration := clean));
      } else if current.Some? {
        current := Some(current.value.(description := current.value.description + clean + " "));
      }
    }
    assert lines[..|lines|] == lines;
    if current.Some? {
      experience := experience + [current.value];
    }
  }

  /** `extract_experience` */
  method ExtractExperience(text: string) returns (experience: seq<Job>)
    ensures experience == Experience(text)
  {
    var section := CutSection(text, ExperienceStart, ExperienceStop);
    experience := [];
    if section != [] {
      experience := ScanEntries(Lines(section));
    }
  }

  /** A line as it stands in a cut section: non-blank and already stripped. */
  predicate Clean(line: string)
  {
    line != [] && Strip(line) == line
  }

  /** The experience entries are those of the cut section's lines; no section, no entries. */
  lemma ExperienceOfSection(text: string)
    ensures Experience(text) == Entries(SectionLines(text, ExperienceStart, ExperienceStop))
  {
    var kept := SectionLines(text, ExperienceStart, ExperienceStop);
    SectionLinesKept(text, ExperienceStart, ExperienceStop);
    if kept != [] {
      TerminatedLines(kept);
      BlankLineNoEntry(kept);
    }
  }

  /** A trailing blank line changes no entry. */
  lemma BlankLineNoEntry(lines: seq<string>)
    ensures ScanJobs(lines + [""]) == ScanJobs(lines)
  {
    assert (lines + [""])[..|lines|] == lines;
  }

  /** `[job['title'] for job in jobs]` */
  function Titles(jobs: seq<Job>): (r: seq<string>)
    ensures |r| == |jobs|
    decreases |jobs|
  {
    if jobs == [] then [] else Titles(jobs[..|jobs| - 1]) + [jobs[|jobs| - 1].title]
  }

  lemma TitlesSnoc(jobs: seq<Job>, job: Job)
    ensures Titles(jobs + [job]) == Titles(jobs) + [job.title]
  {
    assert (jobs + [job])[..|jobs|] == jobs;
  }

  /** The titles of the entries, the open one included, across one step of the loop. */
  lemma JobStepTitles(sc: JobScan, line: string)
    requires Clean(line)
    ensures Titles(Flush(JobStep(sc, line))) == Titles(Flush(sc)) + Filter([line], IsTitleLine)
  {
    FilterOne(line, IsTitleLine);
    if IsTitleLine(line) {
      TitleLineTitles(sc, line);
    } else {
      OtherLineTitles(sc, line);
    }
  }

  lemma TitleLineTitles(sc: JobScan, line: string)
    requires Clean(line) && IsTitleLine(line)
    ensures Titles(Flush(JobStep(sc, line))) == Titles(Flush(sc)) + [line]
  {
    assert JobStep(sc, line) == JobScan(Flush(sc), Some(Job(line, "", "", "")));
    TitlesSnoc(Flush(sc), Job(line, "", "", ""));
  }

  lemma OtherLineTitles(sc: JobScan, line: string)
    requires Clean(line) && !IsTitleLine(line)
    ensures Titles(Flush(JobStep(sc, line))) == Titles(Flush(sc))
  {
    var next := JobStep(sc, line);
    if sc.current.Some? {
      assert next.jobs == sc.jobs && next.current.Some? && next.current.value.title == sc.current.value.title;
      TitlesSnoc(sc.jobs, sc.current.value);
      TitlesSnoc(sc.jobs, next.current.value);
    } else {
      assert next == sc;
    }
  }

  /**
   * There is one entry per title line, in order, and each entry's title is
   * that line: a line holding none of the title words never opens an entry.
   */
  lemma {:induction false} EntryTitles(lines: seq<string>)
    requires forall line :: line in lines ==> Clean(line)
    ensures Titles(Entries(lines)) == Filter(lines, IsTitleLine)
    decreases |lines|
  {
    if lines != [] {
      var init := lines[..|lines| - 1];
      var last := lines[|lines| - 1];
      assert lines == init + [last];
      CleanParts(lines);
      EntryTitles(init);
      EntryTitlesSnoc(init, last);
    }
  }

  lemma CleanParts(lines: seq<string>)
    requires lines != [] && forall line :: line in lines ==> Clean(line)
    ensures forall line :: line in lines[..|lines| - 1] ==> Clean(line)
    ensures Clean(lines[|lines| - 1])
  {
    assert forall line :: line in lines[..|lines| - 1] ==> line in lines;
  }

  lemma EntryTitlesSnoc(init: seq<string>, last: string)
    requires Titles(Entries(init)) == Filter(init, IsTitleLine)
    requires Clean(last)
    ensures Titles(Entries(init + [last])) == Filter(init + [last], IsTitleLine)
  {
    var before := ScanJobs(init);
    JobStepTitles(before, last);
    FilterAppend(init, [last], IsTitleLine);
    assert (init + [last])[..|init|] == init;
    assert ScanJobs(init + [last]) == JobStep(before, last);
  }

  /** The experience entries: exactly one per title line of the section, titled by it. */
  lemma ExperienceTitles(text: string)
    ensures Titles(Experience(text)) == Filter(SectionLines(text, ExperienceStart, ExperienceStop), IsTitleLine)
  {
    ExperienceOfSection(text);
    SectionLinesKept(text, ExperienceStart, ExperienceStop);
    EntryTitles(SectionLines(text, ExperienceStart, ExperienceStop));
  }

  /**
   * What every entry satisfies: its title has a title word; its company, if
   * any, has none; it has no duration or description before a company; the
   * duration, if any, has a digit; the description is empty or ends with the
   * space that follows each added line.
   */
  predicate GoodJob(job: Job)
  {
    && job.title != [] && IsTitleLine(job.title)
    && (job.company == [] || !IsTitleLine(job.company))
    && (job.company == [] ==> job.duration == [] && job.description == [])
    && (job.duration == [] || Patterns.HasDigit(job.duration))
    && (job.description == [] || job.description[|job.description| - 1] == ' ')
  }

  predicate GoodJobScan(sc: JobScan)
  {
    (forall job :: job in sc.jobs ==> GoodJob(job)) && (sc.current.Some? ==> GoodJob(sc.current.value))
  }

  lemma FlushGood(sc: JobScan)
    requires GoodJobScan(sc)
    ensures forall job :: job in Flush(sc) ==> GoodJob(job)
  {
  }

  lemma JobStepGood(sc: JobScan, line: string)
    requires GoodJobScan(sc)
    ensures GoodJobScan(JobStep(sc, line))
  {
    var clean := Strip(line);
    if clean != [] {
      if IsTitleLine(clean) {
        FlushGood(sc);
      } else if sc.current.Some? {
        var job := sc.current.value;
        var next := JobStep(sc, line).current.value;
        if job.company != [] && !Patterns.HasDigit(clean) {
          assert next.description == job.description + clean + " ";
        }
        assert GoodJob(next);
      }
    }
  }

  lemma {:induction false} ScanJobsGood(lines: seq<string>)
    ensures GoodJobScan(ScanJobs(lines))
    decreases |lines|
  {
    if lines != [] {
      ScanJobsGood(lines[..|lines| - 1]);
      JobStepGood(ScanJobs(lines[..|lines| - 1]), lines[|lines| - 1]);
    }
  }

  /** Every experience entry satisfies `GoodJob`. */
  lemma ExperienceGood(text: string)
    ensures forall job :: job in Experience(text) ==> GoodJob(job)
  {
    var section := Terminated(SectionLines(text, ExperienceStart, ExperienceStop));
    ScanJobsGood(Lines(section));
    FlushGood(ScanJobs(Lines(section)));
  }

  /** The line after a title line, unless it is a title line itself, becomes the new entry's company. */
  lemma CompanyFollowsTitle(before: seq<string>, title: string, company: string)
    requires Clean(title) && IsTitleLine(title)
    requires Clean(company) && !IsTitleLine(company)
    ensures ScanJobs(before + [title, company]).current == Some(Job(title, company, "", ""))
  {
    ScanJobsSnocTwo(before, title, company);
    var sc := JobStep(ScanJobs(before), title);
    assert sc.current == Some(Job(title, "", "", ""));
  }

  lemma ScanJobsSnocTwo(lines: seq<string>, a: string, b: string)
    ensures ScanJobs(lines + [a, b]) == JobStep(JobStep(ScanJobs(lines), a), b)
  {
    ScanJobsSnoc(lines, a);
    SnocTwo(lines, a, b);
    ScanJobsSnoc(lines + [a], b);
  }

  lemma ScanJobsSnoc(lines: seq<string>, line: string)
    ensures ScanJobs(lines + [line]) == JobStep(ScanJobs(lines), line)
  {
    assert (lines + [line])[..|lines|] == lines;
  }

  /** With a company set, a line with a digit replaces the duration and any other line extends the description. */
  lemma LaterLines(sc: JobScan, line: string)
    requires sc.current.Some? && sc.current.value.company != []
    requires Clean(line) && !IsTitleLine(line)
    ensures var job := sc.current.value;
            JobStep(sc, line) == sc.(current := Some(
              if Patterns.HasDigit(line) then job.(duration := line)
              else job.(description := job.description + line + " ")))
  {
  }

  // ---------------------------------------------------------------------
  // extract_education

  const EducationStart: seq<string> := ["education", "academic", "qualifications"]
  const EducationStop: seq<string> := ["experience", "skills", "certifications"]
  const DegreeWords: seq<string> := ["bachelor", "master", "phd", "degree", "university", "college"]

  /** An education entry: the degree line, and three fields the parser leaves empty. */
  datatype Degree = Degree(degree: string, institution: string, year: string, gpa: string)

  predicate IsDegreeLine(line: string)
  {
    ContainsAny(Lower(line), DegreeWords)
  }

  /** The loop over the section's lines: one entry per non-blank line with a degree word. */
  function DegreeEntries(lines: seq<string>): seq<Degree>
    decreases |lines|
  {
    if lines == [] then []
    else
      var clean := Strip(lines[|lines| - 1]);
      DegreeEntries(lines[..|lines| - 1])
      + if clean != [] && IsDegreeLine(clean) then [Degree(clean, "", "", "")] else []
  }

  /** The education entries of a text, none when its cut education section is empty. */
  function Education(text: string): seq<Degree>
  {
    var section := Terminated(SectionLines(text, EducationStart, EducationStop));
    if section == [] then [] else DegreeEntries(Lines(section))
  }

  /** `extract_education` */
  method ExtractEducation(text: string) returns (education: seq<Degree>)
    ensures education == Education(text)
  {
    var section := CutSection(text, EducationStart, EducationStop);
    education := [];
    if section != [] {
      education := ScanDegrees(Lines(section));
    }
  }

  /** The entry loop over the lines of the cut section. */
  method ScanDegrees(lines: seq<string>) returns (education: seq<Degree>)
    ensures education == DegreeEntries(lines)
  {
    education := [];
    for i := 0 to |lines|
      invariant education == DegreeEntries(lines[..i])
    {
      assert lines[..i + 1][..i] == lines[..i];
      var clean := Strip(lines[i]);
      if clean != [] && IsDegreeLine(clean) {
        education := education + [Degree(clean, "", "", "")];
      }
    }
    assert lines[..|lines|] == lines;
  }

  /** An entry for each name, the other three fields empty. */
  function DegreesOf(names: seq<string>): (r: seq<Degree>)
    ensures |r| == |names|
    ensures forall i :: 0 <= i < |names| ==> r[i] == Degree(names[i], "", "", "")
  {
    seq(|names|, i requires 0 <= i < |names| => Degree(names[i], "", "", ""))
  }

  lemma DegreesOfAppend(a: seq<string>, b: seq<string>)
    ensures DegreesOf(a + b) == DegreesOf(a) + DegreesOf(b)
  {
  }

  lemma DegreesOfOne(line: string)
    ensures DegreesOf(Filter([line], IsDegreeLine)) == if IsDegreeLine(line) then [Degree(line, "", "", "")] else []
  {
    FilterOne(line, IsDegreeLine);
  }

  lemma {:induction false} DegreeEntriesOfClean(lines: seq<string>)
    requires forall line :: line in lines ==> Clean(line)
    ensures DegreeEntries(lines) == DegreesOf(Filter(lines, IsDegreeLine))
    decreases |lines|
  {
    if lines != [] {
      var init := lines[..|lines| - 1];
      var last := lines[|lines| - 1];
      assert lines == init + [last];
      CleanParts(lines);
      DegreeEntriesOfClean(init);
      DegreeEntriesSnoc(init, last);
    }
  }

  lemma DegreeEntriesSnoc(init: seq<string>, last: string)
    requires DegreeEntries(init) == DegreesOf(Filter(init, IsDegreeLine))
    requires Clean(last)
    ensures DegreeEntries(init + [last]) == DegreesOf(Filter(init + [last], IsDegreeLine))
  {
    assert (init + [last])[..|init|] == init;
    DegreesOfOne(last);
    FilterAppend(init, [last], IsDegreeLine);
    DegreesOfAppend(Filter(init, IsDegreeLine), Filter([last], IsDegreeLine));
  }

  /**
   * One entry per line of the cut education section that holds a degree
   * word, in order, the line as its degree and institution, year and gpa empty.
   */
  lemma EducationOfSection(text: string)
    ensures Education(text) == DegreesOf(Filter(SectionLines(text, EducationStart, EducationStop), IsDegreeLine))
  {
    var kept := SectionLines(text, EducationStart, EducationStop);
    SectionLinesKept(text, EducationStart, EducationStop);
    if kept != [] {
      TerminatedLines(kept);
      assert (kept + [""])[..|kept|] == kept;
    }
    DegreeEntriesOfClean(kept);
  }

  // ---------------------------------------------------------------------
  // extract_structured_data

  /** The structured data of a resume; of the contact details only the name is modelled. */
  datatype Structured = Structured(
    name: string,
    sections: map<string, string>,
    skills: seq<string>,
    experience: seq<Job>,
    education: seq<Degree>,
    rawText: string,
    metadata: PyValues.Value)

  /**
   * `extract_structured_data`, given `parsed_content.get('text', '')` and
   * `parsed_content.get('metadata')`: nothing (the empty dictionary) for an
   * empty text, and otherwise each extractor's result.
   */
  method ExtractStructuredData(text: string, metadata: Option<PyValues.Value>) returns (r: Option<Structured>)
    ensures r.None? <==> text == []
    ensures r.Some? ==> && r.value.name == ContactName(text)
                        && r.value.sections == Sections(text)
                        && NoDups(r.value.skills)
                        && (forall k :: k in r.value.skills <==> k in TextCleaner.SkillTitles(SkillTerms, Lower(text)))
                        && r.value.experience == Experience(text)
                        && r.value.education == Education(text)
                        && r.value.rawText == text
                        && r.value.metadata == (if metadata.Some? then metadata.value else PyValues.VDict([]))
  {
    if text == [] {
      return None;
    }
    var name := ContactName(text);
    var sections := ExtractSections(text);
    var skills := ExtractSkills(text);
    var experience := ExtractExperience(text);
    var education := ExtractEducation(text);
    var meta := if metadata.Some? then metadata.value else PyValues.VDict([]);
    r := Some(Structured(name, sections, skills, experience, education, text, meta));
  }
}
