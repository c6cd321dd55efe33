/**
 * The parsing routes (backend/routes/parse.py): the upload's extension
 * check, the text clean-up, the line scan that picks a name and four
 * sections out of the cleaned text, and the job-description extractor
 * (title, skills, experience level). Reading the upload and the PDF/DOCX
 * text extraction are not part of this model.
 */
module ParseRoute {
  import opened Seqs
  import opened Text
  import Patterns
  import TextCleaner
  import ResumeParser

  // ---------------------------------------------------------------------
  // parse_resume: the checks before the file is read

  /** Why the upload is refused, each a 400 error the handler re-raises as a 500. */
  datatype Refusal = NoFile | UnsupportedType

  datatype Checked = Accepted(extension: string) | Refused(why: Refusal)

  /** An empty file name is refused; so is any extension but pdf, docx and doc. */
  function CheckUpload(filename: string): (r: Checked)
    ensures r == Refused(NoFile) <==> filename == []
    ensures r.Accepted? ==> r.extension == ResumeParser.Extension(filename)
    ensures r.Accepted? <==> filename != [] && ResumeParser.Extension(filename) in ["pdf", "docx", "doc"]
  {
    if filename == [] then Refused(NoFile)
    else
      var ext := ResumeParser.Extension(filename);
      if ext != "pdf" && ext != "docx" && ext != "doc" then Refused(UnsupportedType) else Accepted(ext)
  }

  /** The route accepts a named file exactly when the parser class has a parser for it. */
  lemma UploadCheckAgreesWithParser(filename: string)
    requires filename != []
    ensures CheckUpload(filename).Accepted? <==> ResumeParser.Dispatch(filename).Ok?
  {
  }

  // ---------------------------------------------------------------------
  // clean_text

  /**
   * `clean_text`: whitespace runs to one space, special characters dropped,
   * bullets normalised, ends stripped. The route runs its
   * `re.sub(r'\n\s*\n', '\n\n', ...)` step right after the whitespace
   * collapse, on text that has no newline left, so it changes nothing there.
   */
  function CleanText(text: string): (r: string)
    ensures '\n' !in r
    ensures r == [] || (!IsSpace(r[0]) && !IsSpace(r[|r| - 1]))
    ensures forall c :: c in r ==> TextCleaner.Kept(c) && (IsSpace(c) ==> c == ' ')
  {
    TextCleaner.TidyShape(text);
    TextCleaner.Tidy(text)
  }

  /** The route's clean-up gives the same text as the cleaning class's `clean_resume_text`. */
  lemma CleanTextAsCleaner(text: string)
    ensures CleanText(text) == TextCleaner.CleanResumeText(text)
  {
    if text == [] {
      assert CollapseSpace(text) == [];
      assert TextCleaner.DropSpecial([]) == [];
    }
  }

  // ---------------------------------------------------------------------
  // structure_resume_text

  const SectionPatterns: seq<(string, seq<string>)> := [
    ("summary", ["summary", "objective", "profile", "about"]),
    ("experience", ["experience", "work history", "employment", "career"]),
    ("education", ["education", "academic", "qualifications"]),
    ("skills", ["skills", "technical skills", "competencies", "abilities"])
  ]

  predicate IsSectionName(name: string)
  {
    exists j :: 0 <= j < |SectionPatterns| && SectionPatterns[j].0 == name
  }

  function Heading(line: string): (r: Option<string>)
    ensures r.Some? ==> IsSectionName(r.value)
  {
    TextCleaner.HeadingIn(SectionPatterns, Lower(line))
  }

  /** The loop's variables: the name found so far and the section scan. */
  datatype StructScan = StructScan(name: string, scan: TextCleaner.SectionScan)

  const Start := StructScan("", TextCleaner.SectionScan(map[], None, []))

  /**
   * A stripped, non-blank line that is no heading and has at most three
   * words: what the name can be.
   */
  predicate NameLine(line: string)
  {
    line != [] && Heading(line).None? && |Words(line)| <= 3
  }

  /**
   * One line of the loop. Blank lines are skipped; a heading saves the open
   * section and opens its own; another line joins the open section or,
   * before the first heading, becomes the name if no name is set and it has
   * at most three words.
   */
  function StructStep(st: StructScan, line: string): StructScan
  {
    var clean := Strip(line);
    StepOn(st, clean, Heading(clean), |Words(clean)| <= 3)
  }

  /** The step for a stripped line, the heading it opens and whether it is short enough to be a name. */
  function StepOn(st: StructScan, clean: string, heading: Option<string>, short: bool): StructScan
  {
    if clean == [] then st
    else match heading
      case Some(section) => st.(scan := TextCleaner.SectionScan(TextCleaner.Save(st.scan), Some(section), []))
      case None =>
        if st.scan.current.Some? then st.(scan := st.scan.(content := st.scan.content + [clean]))
        else if st.name == [] && short then st.(name := clean)
        else st
  }

  function StructLines(lines: seq<string>): StructScan
    decreases |lines|
  {
    if lines == [] then Start
    else StructStep(StructLines(lines[..|lines| - 1]), lines[|lines| - 1])
  }

  /** The name and the sections `structure_resume_text` finds; its other fields are left out. */
  datatype Structure = Structure(name: string, sections: map<string, string>)

  function StructureOf(text: string): Structure
  {
    var st := StructLines(Lines(text));
    Structure(st.name, TextCleaner.Save(st.scan))
  }

  /** `structure_resume_text`, for the name and the sections. */
  method StructureResumeText(text: string) returns (r: Structure)
    ensures r == StructureOf(text)
  {
    var st := ScanStructure(Lines(text));
    var sections := st.scan.sections;
    if st.scan.current.Some? && st.scan.content != [] {
      sections := sections[st.scan.current.value := Join(st.scan.content, "\n")];
    }
    r := Structure(st.name, sections);
  }

  /** The loop of `structure_resume_text` over the lines. */
  method ScanStructure(lines: seq<string>) returns (st: StructScan)
    ensures st == StructLines(lines)
  {
    var name := "";
    var sections: map<string, string> := map[];
    var current: Option<string> := None;
    var content: seq<string> := [];
    for i := 0 to |lines|
      invariant StructScan(name, TextCleaner.SectionScan(sections, current, content)) == StructLines(lines[..i])
    {
      TakeOneMore(lines, i);
      StructLinesSnoc(lines[..i], lines[i]);
      name, sections, current, content := StructureLine(name, sections, current, content, lines[i]);
    }
    assert lines[..|lines|] == lines;
    st := StructScan(name, TextCleaner.SectionScan(sections, current, content));
  }

  lemma StructLinesSnoc(lines: seq<string>, line: string)
    ensures StructLines(lines + [line]) == StructStep(StructLines(lines), line)
  {
    assert (lines + [line])[..|lines|] == lines;
  }

  /** The body of the loop for one line. */
  method StructureLine(name: string, sections: map<string, string>, current: Option<string>, content: seq<string>, line: string)
    returns (name': string, sections': map<string, string>, current': Option<string>, content': seq<string>)
    ensures StructScan(name', TextCleaner.SectionScan(sections', current', content'))
         == StructStep(StructScan(name, TextCleaner.SectionScan(sections, current, content)), line)
  {
    var clean := Strip(line);
    var heading := None;
    if clean != [] {
      heading := TextCleaner.FindHeading(SectionPatterns, Lower(clean));
    }
    var short := |Words(clean)| <= 3;
    name', sections', current', content' := StepOnValues(name, sections, current, content, clean, heading, short);
  }

  /** The branches of the loop body, once the line is stripped and looked up. */
  method StepOnValues(name: string, sections: map<string, string>, current: Option<string>, content: seq<string>,
                      clean: string, heading: Option<string>, short: bool)
    returns (name': string, sections': map<string, string>, current': Option<string>, content': seq<string>)
    ensures StructScan(name', TextCleaner.SectionScan(sections', current', content'))
         == StepOn(StructScan(name, TextCleaner.SectionScan(sections, current, content)), clean, heading, short)
  {
    name', sections', current', content' := name, sections, current, content;
    if clean == [] {
      return;
    }
    if heading.Some? {
      if current.Some? && content != [] {
        sections' := sections[current.value := Join(content, "\n")];
      }
      current' := heading;
      content' := [];
    } else if current.Some? {
      content' := content + [clean];
    } else if name == [] && short {
      name' := clean;
    }
  }

  /**
   * What the loop keeps true: the saved sections have known names and
   * non-empty texts, the open section is a known one, its lines are
   * non-empty, and the name, once set, is a name line.
   */
  predicate GoodStruct(st: StructScan)
  {
    && (forall k :: k in st.scan.sections ==> IsSectionName(k) && st.scan.sections[k] != [])
    && (st.scan.current.Some? ==> IsSectionName(st.scan.current.value))
    && (forall line :: line in st.scan.content ==> line != [])
    && (st.name == [] || NameLine(st.name))
  }

  /** Joining lines the first of which is non-empty gives a non-empty text. */
  lemma JoinNonEmpty(xs: seq<string>, sep: string)
    requires xs != [] && xs[0] != []
    ensures Join(xs, sep) != []
  {
  }

  lemma SaveStruct(st: StructScan)
    requires GoodStruct(st)
    ensures forall k :: k in TextCleaner.Save(st.scan) ==> IsSectionName(k) && TextCleaner.Save(st.scan)[k] != []
  {
    if st.scan.current.Some? && st.scan.content != [] {
      assert st.scan.content[0] in st.scan.content;
      JoinNonEmpty(st.scan.content, "\n");
    }
  }

  lemma StructStepGood(st: StructScan, line: string)
    requires GoodStruct(st)
    ensures GoodStruct(StructStep(st, line))
  {
    var clean := Strip(line);
    var heading := Heading(clean);
    var short := |Words(clean)| <= 3;
    if clean != [] && heading.Some? {
      SaveStruct(st);
    }
    if clean != [] && heading.None? && short {
      assert NameLine(clean);
    }
    StepOnGood(st, clean, heading, short);
  }

  lemma StepOnGood(st: StructScan, clean: string, heading: Option<string>, short: bool)
    requires GoodStruct(st)
    requires clean != [] && heading.Some? ==>
               (IsSectionName(heading.value)
                && forall k :: k in TextCleaner.Save(st.scan) ==> IsSectionName(k) && TextCleaner.Save(st.scan)[k] != [])
    requires clean != [] && heading.None? && short ==> NameLine(clean)
    ensures GoodStruct(StepOn(st, clean, heading, short))
  {
  }

  lemma {:induction false} StructLinesGood(lines: seq<string>)
    ensures GoodStruct(StructLines(lines))
    decreases |lines|
  {
    if lines != [] {
      StructLinesGood(lines[..|lines| - 1]);
      StructStepGood(StructLines(lines[..|lines| - 1]), lines[|lines| - 1]);
    }
  }

  /**
   * Section keys are among the four names and every stored section is
   * non-empty; the name is empty or a stripped non-heading line of at most
   * three words.
   */
  lemma StructureWellFormed(text: string)
    ensures var r := StructureOf(text);
            && (forall k :: k in r.sections ==> IsSectionName(k) && r.sections[k] != [])
            && (r.name == [] || NameLine(r.name))
  {
    StructLinesGood(Lines(text));
    SaveStruct(StructLines(Lines(text)));
  }

  /** Once set, the name never changes; once a section is open, the name is settled. */
  lemma NameSetOnce(st: StructScan, line: string)
    ensures st.name != [] ==> StructStep(st, line).name == st.name
    ensures st.scan.current.Some? ==> StructStep(st, line).name == st.name && StructStep(st, line).scan.current.Some?
  {
  }

  /** The name a run of lines gives: the first name line before any heading line. */
  function FirstName(lines: seq<string>): string
    decreases |lines|
  {
    if lines == [] then ""
    else
      var clean := Strip(lines[0]);
      if clean == [] then FirstName(lines[1..])
      else if Heading(clean).Some? then ""
      else if |Words(clean)| <= 3 then clean
      else FirstName(lines[1..])
  }

  /** Scanning from a state with no name and no open section. */
  function StructFrom(st: StructScan, lines: seq<string>): StructScan
    decreases |lines|
  {
    if lines == [] then st else StructFrom(StructStep(st, lines[0]), lines[1..])
  }

  lemma {:induction false} StructFromAppend(st: StructScan, xs: seq<string>, x: string)
    ensures StructFrom(st, xs + [x]) == StructStep(StructFrom(st, xs), x)
    decreases |xs|
  {
    if xs == [] {
      assert [] + [x] == [x];
      assert [x][1..] == [];
    } else {
      assert (xs + [x])[0] == xs[0] && (xs + [x])[1..] == xs[1..] + [x];
      StructFromAppend(StructStep(st, xs[0]), xs[1..], x);
    }
  }

  lemma {:induction false} StructLinesFrom(lines: seq<string>)
    ensures StructLines(lines) == StructFrom(Start, lines)
    decreases |lines|
  {
    if lines != [] {
      var init := lines[..|lines| - 1];
      assert lines == init + [lines[|lines| - 1]];
      StructLinesFrom(init);
      StructFromAppend(Start, init, lines[|lines| - 1]);
    }
  }

  lemma {:induction false} FirstNameFrom(st: StructScan, lines: seq<string>)
    requires st.name == [] && st.scan.current.None?
    ensures StructFrom(st, lines).name == FirstName(lines)
    decreases |lines|
  {
    if lines != [] {
      var clean := Strip(lines[0]);
      var heading := Heading(clean);
      var short := |Words(clean)| <= 3;
      var next := StepOn(st, clean, heading, short);
      assert StructFrom(st, lines) == StructFrom(next, lines[1..]);
      if clean == [] || (heading.None? && !short) {
        assert next == st;
        FirstNameFrom(next, lines[1..]);
      } else {
        assert next.name != [] || next.scan.current.Some?;
        NameSettled(next, lines[1..]);
      }
    }
  }

  /** A state with a name or an open section keeps its name to the end. */
  lemma {:induction false} NameSettled(st: StructScan, lines: seq<string>)
    requires st.name != [] || st.scan.current.Some?
    ensures StructFrom(st, lines).name == st.name
    decreases |lines|
  {
    if lines != [] {
      NameSetOnce(st, lines[0]);
      NameSettled(StructStep(st, lines[0]), lines[1..]);
    }
  }

  /**
   * The name is set once: it is the first non-blank line of at most three
   * words, provided no heading line comes before it.
   */
  lemma NameIsFirstNameLine(text: string)
    ensures StructureOf(text).name == FirstName(Lines(text))
  {
    StructLinesFrom(Lines(text));
    FirstNameFrom(Start, Lines(text));
  }

  /**
   * The upload handler structures the cleaned text, which holds no newline:
   * a single line, so no section is ever stored there.
   */
  lemma CleanedTextHasNoSections(text: string)
    ensures StructureOf(CleanText(text)).sections == map[]
  {
    var cleaned := CleanText(text);
    OneLineStructure(cleaned);
  }

  /** A text without a newline is a single line: no section can be stored. */
  lemma OneLineStructure(line: string)
    requires '\n' !in line
    ensures StructureOf(line).sections == map[]
  {
    assert NoneOf(line, {'\n'}) by {
      forall i | 0 <= i < |line| ensures line[i] != '\n' {
        assert line[i] in line;
      }
    }
    SplitWhole(line, {'\n'});
    assert Lines(line) == [line];
    StructLinesSnoc([], line);
    assert [] + [line] == [line];
    var clean := Strip(line);
    OneLineNoSections(clean, Heading(clean), |Words(clean)| <= 3);
  }

  /** A single line, heading or not, leaves nothing to save. */
  lemma OneLineNoSections(clean: string, heading: Option<string>, short: bool)
    ensures TextCleaner.Save(StepOn(Start, clean, heading, short).scan) == map[]
  {
  }

  // ---------------------------------------------------------------------
  // parse_resume: the response

  /** What reading the upload and extracting its text gave: the text, or the parser's error message. */
  datatype Extracted = Extracted(text: string) | ExtractionFailed(message: string)

  /** The route's reply: the parsed resume, or an HTTP error with its status and detail. */
  datatype Reply =
    | Parsed(filename: string, text: string, structured: Structure, wordCount: nat)
    | Failure(status: nat, detail: string)

  function RefusalDetail(why: Refusal): string
  {
    match why
    case NoFile => "No file provided"
    case UnsupportedType => "Unsupported file type. Please upload PDF or DOCX files only."
  }

  const ParseFailurePrefix := "Error parsing resume: "

  /** The reply for an accepted upload: its text cleaned, structured and counted. */
  function ParsedReply(filename: string, extracted: Extracted): (r: Reply)
    ensures r.Failure? <==> extracted.ExtractionFailed?
    ensures extracted.ExtractionFailed? ==> r == Failure(500, ParseFailurePrefix + extracted.message)
    ensures r.Parsed? ==> && r.filename == filename
                          && r.text == CleanText(extracted.text)
                          && '\n' !in r.text
                          && r.wordCount == |Words(r.text)|
                          && r.structured.sections == map[]
  {
    match extracted
    case Extracted(text) =>
      var cleaned := CleanText(text);
      CleanedTextHasNoSections(text);
      Parsed(filename, cleaned, StructureOf(cleaned), |Words(cleaned)|)
    case ExtractionFailed(message) => Failure(500, ParseFailurePrefix + message)
  }

  /**
   * `parse_resume` as written: the 400 errors for a missing name or a wrong
   * extension are raised inside the `try` whose `except Exception` turns
   * every error into a 500, so the 400 is caught and re-raised as a 500
   * whose detail carries the exception's text, "400: " and the message.
   */
  function ParseResumeAsWritten(filename: string, extracted: Extracted): (r: Reply)
    ensures r.Failure? ==> r.status == 500
  {
    match CheckUpload(filename)
    case Refused(why) => Failure(500, ParseFailurePrefix + "400: " + RefusalDetail(why))
    case Accepted(_) => ParsedReply(filename, extracted)
  }

  /**
   * `parse_resume` with the refusals answered as the 400 errors they are
   * raised as; everything else as written.
   */
  function ParseResume(filename: string, extracted: Extracted): (r: Reply)
    ensures r.Failure? && r.status == 400 <==> CheckUpload(filename).Refused?
    ensures r.Failure? && r.status == 500 <==> CheckUpload(filename).Accepted? && extracted.ExtractionFailed?
    ensures r.Parsed? ==> extracted.Extracted? && r.filename == filename && r.text == CleanText(extracted.text)
  {
    match CheckUpload(filename)
    case Refused(why) => Failure(400, RefusalDetail(why))
    case Accepted(_) => ParsedReply(filename, extracted)
  }

  /**
   * A refused upload gets a 500 as written where a 400 is meant: an upload
   * named "resume.txt" is answered "500 Error parsing resume: 400:
   * Unsupported file type. ..." instead of "400 Unsupported file type. ...".
   */
  lemma RefusalBecomesServerError(filename: string, extracted: Extracted)
    requires CheckUpload(filename).Refused?
    ensures ParseResumeAsWritten(filename, extracted).status == 500
    ensures ParseResume(filename, extracted).status == 400
  {
  }

  lemma TextFileRefusedAsServerError()
    ensures ParseResumeAsWritten("resume.txt", Extracted("")) ==
            Failure(500, ParseFailurePrefix + "400: " + RefusalDetail(UnsupportedType))
  {
    assert "resume.txt" == "resume" + "." + "txt";
    ResumeParser.ExtensionAfterLastDot("resume", "txt");
    assert Lower("txt") == "txt";
    assert CheckUpload("resume.txt") == Refused(UnsupportedType);
  }

  /**
   * A parsed reply carries the cleaned text, a single line, its word count,
   * and structured data without a single section.
   */
  lemma ParsedReplyShape(filename: string, extracted: Extracted)
    requires ParseResume(filename, extracted).Parsed?
    ensures var r := ParseResume(filename, extracted);
            && '\n' !in r.text
            && r.wordCount == |Words(r.text)|
            && r.structured.sections == map[]
  {
    CleanedTextHasNoSections(extracted.text);
  }

  // ---------------------------------------------------------------------
  // extract_job_requirements

  const TitleWords: seq<string> := ["engineer", "developer", "manager", "analyst", "specialist"]

  predicate HasTitleWord(line: string)
  {
    ContainsAny(Lower(line), TitleWords)
  }

  /** Line `i` is among the first five, has a title word, and no earlier line has one. */
  predicate FirstTitleLine(lines: seq<string>, i: nat)
  {
    i < 5 && i < |lines| && HasTitleWord(lines[i]) && forall j :: 0 <= j < i ==> !HasTitleWord(lines[j])
  }

  /** The first of the first five lines with a title word, stripped; the empty text when there is none. */
  function JobTitle(lines: seq<string>): (r: string)
    ensures forall i: nat :: FirstTitleLine(lines, i) ==> r == Strip(lines[i])
    ensures (forall i :: 0 <= i < 5 && i < |lines| ==> !HasTitleWord(lines[i])) ==> r == []
  {
    var f := (i: nat) => i < |lines| && HasTitleWord(lines[i]);
    var n := if |lines| < 5 then |lines| else 5;
    match FindFirst(0, n, f)
    case Some(i) =>
      assert forall k: nat :: FirstTitleLine(lines, k) ==> k == i by {
        forall k: nat | FirstTitleLine(lines, k) ensures k == i {
          assert f(k) && f(i);
        }
      }
      Strip(lines[i])
    case None =>
      assert forall i: nat :: !FirstTitleLine(lines, i) by {
        forall i: nat | i < n ensures !FirstTitleLine(lines, i) {
          assert !f(i);
        }
      }
      ""
  }

  /** The title loop, with its `break`. */
  method ExtractTitle(lines: seq<string>) returns (title: string)
    ensures title == JobTitle(lines)
  {
    title := "";
    var first := Prefix(lines, 5);
    for i := 0 to |first|
      invariant forall j :: 0 <= j < i ==> !HasTitleWord(lines[j])
    {
      if HasTitleWord(first[i]) {
        title := Strip(first[i]);
        assert FirstTitleLine(lines, i);
        return;
      }
    }
  }

  const SkillKeywords: seq<string> := [
    "javascript", "python", "java", "react", "node.js", "sql", "aws", "docker",
    "kubernetes", "git", "agile", "scrum", "leadership", "communication"
  ]

  /** `[t.title() for t in terms]` */
  function Titles(terms: seq<string>): (r: seq<string>)
    ensures |r| == |terms|
    ensures forall i :: 0 <= i < |terms| ==> r[i] == Title(terms[i])
  {
    seq(|terms|, i requires 0 <= i < |terms| => Title(terms[i]))
  }

  /** A skill the job extractor can report: the title of one of its terms. */
  predicate IsSkillTitle(k: string)
  {
    exists t :: t in SkillKeywords && k == Title(t)
  }

  /** The title of each term of `vocab` that occurs in `text`, in list order. */
  function TitledHits(vocab: seq<string>, text: string): (r: seq<string>)
    ensures forall k :: k in r ==> exists t :: t in vocab && Contains(text, t) && k == Title(t)
    ensures forall t :: t in vocab && Contains(text, t) ==> Title(t) in r
    ensures |r| <= |vocab|
  {
    var found := Occurring(vocab, text);
    var r := Titles(found);
    assert forall i :: 0 <= i < |r| ==> found[i] in found;
    assert forall t :: t in found ==> Title(t) in r by {
      forall t | t in found ensures Title(t) in r {
        var i :| 0 <= i < |found| && found[i] == t;
        assert r[i] == Title(t);
      }
    }
    r
  }

  /** The hits keep list order: they are the titles of a subsequence of the list, the terms found. */
  lemma TitledHitsInOrder(vocab: seq<string>, text: string)
    ensures IsSubseq(Occurring(vocab, text), vocab)
    ensures TitledHits(vocab, text) == Titles(Occurring(vocab, text))
    ensures forall t :: t in Occurring(vocab, text) <==> t in vocab && Contains(text, t)
  {
  }

  /** The skills one line contributes: a title per term it contains, in list order. */
  function LineSkills(line: string): (r: seq<string>)
    ensures forall k :: k in r ==> IsSkillTitle(k)
    ensures forall t :: t in SkillKeywords && Contains(Lower(line), t) ==> Title(t) in r
  {
    TitledHits(SkillKeywords, Lower(line))
  }

  /** The skills of all lines, line after line: a term found on two lines is listed twice. */
  function JobSkills(lines: seq<string>): (r: seq<string>)
    ensures forall k :: k in r ==> IsSkillTitle(k)
  {
    FlatMap(LineSkills, lines)
  }

  lemma TitlesSnoc(terms: seq<string>, t: string)
    ensures Titles(terms + [t]) == Titles(terms) + [Title(t)]
  {
  }

  /** The nested skill loops. */
  method ExtractJobSkills(lines: seq<string>) returns (skills: seq<string>)
    ensures skills == JobSkills(lines)
  {
    skills := [];
    for i := 0 to |lines|
      invariant skills == JobSkills(lines[..i])
    {
      TakeOneMore(lines, i);
      FlatMapSnoc(LineSkills, lines[..i], lines[i]);
      var lineSkills := ExtractLineSkills(lines[i]);
      skills := skills + lineSkills;
    }
    assert lines[..|lines|] == lines;
  }

  /** The inner loop over the skill list for one line. */
  method ExtractLineSkills(line: string) returns (found: seq<string>)
    ensures found == LineSkills(line)
  {
    found := CollectTitles(SkillKeywords, Lower(line));
  }

  /** The title of each term of `terms` that occurs in `lower`, in list order. */
  method CollectTitles(terms: seq<string>, lower: string) returns (found: seq<string>)
    ensures found == TitledHits(terms, lower)
  {
    found := [];
    for j := 0 to |terms|
      invariant found == Titles(Occurring(terms[..j], lower))
    {
      var skill := terms[j];
      OccurringAppend(terms[..j], skill, lower);
      TakeOneMore(terms, j);
      if Contains(lower, skill) {
        TitlesSnoc(Occurring(terms[..j], lower), skill);
        found := found + [Title(skill)];
      }
    }
    assert terms[..|terms|] == terms;
  }

  /** The skills of two runs of lines are the skills of each, one after the other: nothing is merged. */
  lemma JobSkillsAppend(xs: seq<string>, ys: seq<string>)
    ensures JobSkills(xs + ys) == JobSkills(xs) + JobSkills(ys)
  {
    FlatMapAppend(LineSkills, xs, ys);
  }

  /** A term on a line gives its title among the skills. */
  lemma SkillOnLine(lines: seq<string>, i: nat, t: string)
    requires i < |lines| && t in SkillKeywords && Contains(Lower(lines[i]), t)
    ensures Title(t) in JobSkills(lines)
  {
    var found := Occurring(SkillKeywords, Lower(lines[i]));
    var k :| 0 <= k < |found| && found[k] == t;
    assert LineSkills(lines[i])[k] == Title(t);
    FlatMapMember(LineSkills, lines, i, Title(t));
  }

  // experience_level

  /**
   * The experience patterns: `(\d+)\+?\s*years?`, `a.b` for two words with
   * any character but a newline between them, and plain words.
   */
  datatype LevelPattern = YearsPattern | Dotted(before: string, after: string) | Word(word: string)

  const ExperiencePatterns: seq<LevelPattern> := [
    YearsPattern, Dotted("entry", "level"), Word("senior"), Word("junior"), Dotted("mid", "level"), Word("lead")
  ]

  /** `a.b` matches at `p`. */
  predicate DottedAt(s: string, p: nat, a: string, b: string)
  {
    At(s, p, a) && p + |a| < |s| && s[p + |a|] != '\n' && At(s, p + |a| + 1, b)
  }

  /** `re.search(pattern, s).group()`: the text of the leftmost match, if any. */
  function Search(pattern: LevelPattern, s: string): (r: Option<string>)
    ensures r.Some? ==> Contains(s, r.value)
    ensures r.Some? && !pattern.Word? ==> r.value != []
    ensures pattern.Word? ==> (r.Some? <==> Contains(s, pattern.word))
  {
    match pattern
    case YearsPattern =>
      (match Patterns.SearchYears(s, Patterns.NoTail)
       case Some(p) =>
         var e := Patterns.YearsMatchEnd(s, p, Patterns.NoTail).value;
         ContainsSlice(s, p, e);
         Some(s[p..e])
       case None => None)
    case Dotted(a, b) =>
      var f := (p: nat) => DottedAt(s, p, a, b);
      (match FindFirst(0, |s|, f)
       case Some(p) =>
         var e := p + |a| + 1 + |b|;
         ContainsSlice(s, p, e);
         Some(s[p..e])
       case None => None)
    case Word(w) => if Contains(s, w) then Some(w) else None
  }

  /** A dotted pattern finds its leftmost match: a match with none before it is the text found. */
  lemma SearchDottedLeftmost(a: string, b: string, s: string, p: nat)
    requires DottedAt(s, p, a, b) && forall q: nat :: q < p ==> !DottedAt(s, q, a, b)
    ensures Search(Dotted(a, b), s) == Some(s[p..p + |a| + 1 + |b|])
  {
    var f := (q: nat) => DottedAt(s, q, a, b);
    var r := FindFirst(0, |s|, f);
    assert f(p);
  }

  /** A dotted pattern finds nothing exactly when it matches nowhere. */
  lemma SearchDottedNone(a: string, b: string, s: string)
    ensures Search(Dotted(a, b), s).None? <==> forall q: nat :: q < |s| ==> !DottedAt(s, q, a, b)
  {
    var f := (q: nat) => DottedAt(s, q, a, b);
    var r := FindFirst(0, |s|, f);
    if r.None? {
      forall q: nat | q < |s| ensures !DottedAt(s, q, a, b) {
        assert !f(q);
      }
    } else {
      assert f(r.value);
    }
  }

  /** The years pattern finds its leftmost match, and the text found runs from there to the match's end. */
  lemma SearchYearsPatternLeftmost(s: string, p: nat)
    requires p < |s| && Patterns.YearsMatchesAt(s, Patterns.NoTail, p)
    requires forall q: nat :: q < p ==> !Patterns.YearsMatchesAt(s, Patterns.NoTail, q)
    ensures Search(YearsPattern, s) == Some(s[p..Patterns.YearsMatchEnd(s, p, Patterns.NoTail).value])
  {
    Patterns.SearchYearsLeftmost(s, Patterns.NoTail, p);
  }

  /** The first pattern of the list that matches, and its matched text. */
  function FirstMatch(patterns: seq<LevelPattern>, s: string): (r: string)
    ensures r != [] ==> Contains(s, r)
  {
    if patterns == [] then ""
    else match Search(patterns[0], s)
      case Some(m) => m
      case None => FirstMatch(patterns[1..], s)
  }

  /** `experience_level`: the text the first matching pattern matches in the lower-cased job text. */
  function ExperienceLevel(jobText: string): string
  {
    FirstMatch(ExperiencePatterns, Lower(jobText))
  }

  /** The pattern loop, with its `break`. */
  method ExtractExperienceLevel(jobText: string) returns (level: string)
    ensures level == ExperienceLevel(jobText)
  {
    var lower := Lower(jobText);
    level := "";
    var i := 0;
    while i < |ExperiencePatterns|
      invariant i <= |ExperiencePatterns|
      invariant FirstMatch(ExperiencePatterns[i..], lower) == FirstMatch(ExperiencePatterns, lower)
    {
      assert ExperiencePatterns[i..][1..] == ExperiencePatterns[i + 1..];
      var found := Search(ExperiencePatterns[i], lower);
      if found.Some? {
        level := found.value;
        return;
      }
      i := i + 1;
    }
  }

  /**
   * The level is the first pattern's match, in list order: empty exactly when
   * no pattern matches, a years phrase whenever one occurs, and otherwise a
   * piece of the lower-cased text.
   */
  lemma {:induction false} FirstMatchIff(patterns: seq<LevelPattern>, s: string)
    requires forall q :: q in patterns && q.Word? ==> q.word != []
    ensures FirstMatch(patterns, s) == [] <==> forall q :: q in patterns ==> Search(q, s).None?
    decreases |patterns|
  {
    if patterns != [] {
      assert forall q :: q in patterns[1..] ==> q in patterns;
      FirstMatchIff(patterns[1..], s);
      assert forall q :: q in patterns ==> q == patterns[0] || q in patterns[1..];
    }
  }

  /** Patterns are tried in list order: the first that matches gives the level, whatever later ones would match. */
  lemma {:induction false} FirstMatchAt(patterns: seq<LevelPattern>, s: string, j: nat)
    requires j < |patterns| && Search(patterns[j], s).Some?
    requires forall i :: 0 <= i < j ==> Search(patterns[i], s).None?
    ensures FirstMatch(patterns, s) == Search(patterns[j], s).value
  {
    if j > 0 {
      assert Search(patterns[0], s).None?;
      assert patterns[1..][j - 1] == patterns[j];
      FirstMatchAt(patterns[1..], s, j - 1);
    }
  }

  /**
   * `senior` is tried before `lead`: a text with no years phrase and no
   * `entry.level` that holds `senior` is senior, even when it also holds
   * `lead` (as "senior lead" does).
   */
  lemma SeniorBeforeLead(jobText: string)
    requires Search(YearsPattern, Lower(jobText)).None? && Search(Dotted("entry", "level"), Lower(jobText)).None?
    requires Contains(Lower(jobText), "senior")
    ensures ExperienceLevel(jobText) == "senior"
  {
    FirstMatchAt(ExperiencePatterns, Lower(jobText), 2);
  }

  /** The level is empty exactly when none of the six patterns matches; a years phrase comes first. */
  lemma ExperienceLevelIff(jobText: string)
    ensures ExperienceLevel(jobText) == [] <==> forall q :: q in ExperiencePatterns ==> Search(q, Lower(jobText)).None?
    ensures Search(YearsPattern, Lower(jobText)).Some? ==> ExperienceLevel(jobText) == Search(YearsPattern, Lower(jobText)).value
  {
    FirstMatchIff(ExperiencePatterns, Lower(jobText));
  }

  /** The job requirements the route extracts; the other fields stay at their empty defaults. */
  datatype JobRequirements = JobRequirements(title: string, skills: seq<string>, experienceLevel: string)

  /** `extract_job_requirements` */
  method ExtractJobRequirements(jobText: string) returns (r: JobRequirements)
    ensures r == JobRequirements(JobTitle(Lines(jobText)), JobSkills(Lines(jobText)), ExperienceLevel(jobText))
  {
    var lines := Lines(jobText);
    var title := ExtractTitle(lines);
    var skills := ExtractJobSkills(lines);
    var level := ExtractExperienceLevel(jobText);
    r := JobRequirements(title, skills, level);
  }
}
