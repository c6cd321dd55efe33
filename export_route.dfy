/**
 * The export route's data preparation (backend/routes/export.py): the
 * template data drawn from a resume's request body, with its fallbacks to
 * the `sections` texts, and the two text parsers those fallbacks use. The
 * template rendering, the LaTeX compilation, the files and the HTTP
 * handlers are not part of this model.
 */
module ExportRoute {
  import opened Seqs
  import opened Text
  import Patterns
  import PyValues

  // ---------------------------------------------------------------------
  // parse_experience_text

  const TitleWords: seq<string> := ["engineer", "developer", "manager", "analyst", "specialist", "coordinator"]

  predicate IsTitleLine(line: string)
  {
    ContainsAny(Lower(line), TitleWords)
  }

  /** One experience record: the title line, then company, years and description. */
  datatype Entry = Entry(title: string, company: string, years: string, description: string)

  /** The loop's variables: the records pushed so far and the open one (`current_job`, empty as `{}`). */
  datatype Scan = Scan(entries: seq<Entry>, current: Option<Entry>)

  /** `if current_job: experience.append(current_job)` */
  function Flush(sc: Scan): seq<Entry>
  {
    match sc.current
    case None => sc.entries
    case Some(e) => sc.entries + [e]
  }

  /** One line of the loop: the line is stripped, then classified. */
  function Step(sc: Scan, line: string): Scan
  {
    var clean := Strip(line);
    StepOn(sc, clean, IsTitleLine(clean), Patterns.HasDigit(clean))
  }

  /**
   * A stripped line, whether it has a title word and whether it has a digit.
   * Blank lines are skipped; a title line pushes the open record and opens a
   * new one; with a record open, the first other line is its company, then
   * the first line with a digit its years, and every other line is added to
   * the description with a trailing space. Lines before the first title are
   * dropped.
   */
  function StepOn(sc: Scan, clean: string, title: bool, digit: bool): Scan
  {
    if clean == [] then sc
    else if title then Scan(Flush(sc), Some(Entry(clean, "", "", "")))
    else match sc.current
      case None => sc
      case Some(e) =>
        if e.company == [] then sc.(current := Some(e.(company := clean)))
        else if e.years == [] && digit then sc.(current := Some(e.(years := clean)))
        else sc.(current := Some(e.(description := e.description + clean + " ")))
  }

  function ScanLines(lines: seq<string>): Scan
    decreases |lines|
  {
    if lines == [] then Scan([], None) else Step(ScanLines(lines[..|lines| - 1]), lines[|lines| - 1])
  }

  lemma ScanLinesSnoc(lines: seq<string>, line: string)
    ensures ScanLines(lines + [line]) == Step(ScanLines(lines), line)
  {
    assert (lines + [line])[..|lines|] == lines;
  }

  /** The records of an experience text: none for the empty text, else the scan of its lines. */
  function Experience(text: string): seq<Entry>
  {
    if text == [] then [] else Flush(ScanLines(Lines(text)))
  }

  /** `parse_experience_text` on a text. */
  method ParseExperienceText(text: string) returns (experience: seq<Entry>)
    ensures experience == Experience(text)
  {
    experience := [];
    if text == [] {
      return;
    }
    var lines := Lines(text);
    var current: Option<Entry> := None;
    for i := 0 to |lines|
      invariant Scan(experience, current) == ScanLines(lines[..i])
    {
      TakeOneMore(lines, i);
      ScanLinesSnoc(lines[..i], lines[i]);
      var clean := Strip(lines[i]);
      experience, current := StepValues(experience, current, clean, IsTitleLine(clean), Patterns.HasDigit(clean));
    }
    assert lines[..|lines|] == lines;
    if current.Some? {
      experience := experience + [current.value];
    }
  }

  /** The branches of the loop body, once the line is stripped and classified. */
  method StepValues(experience: seq<Entry>, current: Option<Entry>, clean: string, title: bool, digit: bool)
    returns (experience': seq<Entry>, current': Option<Entry>)
    ensures Scan(experience', current') == StepOn(Scan(experience, current), clean, title, digit)
  {
    experience', current' := experience, current;
    if clean == [] {
      return;
    }
    if title {
      if current.Some? {
        experience' := experience + [current.value];
      }
      current' := Some(Entry(clean, "", "", ""));
    } else if current.Some? && current.value.company == [] {
      current' := Some(current.value.(company := clean));
    } else if current.Some? && current.value.years == [] && digit {
      current' := Some(current.value.(years := clean));
    } else if current.Some? {
      current' := Some(current.value.(description := current.value.description + clean + " "));
    }
  }

  /** The title a line opens a record with, if any: itself, stripped. */
  function TitleOf(line: string): seq<string>
  {
    var clean := Strip(line);
    if clean != [] && IsTitleLine(clean) then [clean] else []
  }

  /** `[e['title'] for e in entries]` */
  function Titles(entries: seq<Entry>): (r: seq<string>)
    ensures |r| == |entries|
    ensures forall i :: 0 <= i < |entries| ==> r[i] == entries[i].title
  {
    seq(|entries|, i requires 0 <= i < |entries| => entries[i].title)
  }

  lemma TitlesSnoc(entries: seq<Entry>, e: Entry)
    ensures Titles(entries + [e]) == Titles(entries) + [e.title]
  {
  }

  /** The titles of the records, the open one included. */
  function ScanTitles(sc: Scan): seq<string>
  {
    Titles(Flush(sc))
  }

  lemma StepOnTitles(sc: Scan, clean: string, title: bool, digit: bool)
    ensures ScanTitles(StepOn(sc, clean, title, digit)) == ScanTitles(sc) + (if clean != [] && title then [clean] else [])
  {
    var next := StepOn(sc, clean, title, digit);
    if clean != [] && title {
      TitlesSnoc(Flush(sc), Entry(clean, "", "", ""));
    } else if clean != [] && sc.current.Some? {
      TitlesSnoc(sc.entries, sc.current.value);
      TitlesSnoc(sc.entries, next.current.value);
    }
  }

  lemma {:induction false} ScanLinesTitles(lines: seq<string>)
    ensures ScanTitles(ScanLines(lines)) == FlatMap(TitleOf, lines)
    decreases |lines|
  {
    if lines != [] {
      var init := lines[..|lines| - 1];
      var last := lines[|lines| - 1];
      assert lines == init + [last];
      ScanLinesTitles(init);
      var clean := Strip(last);
      StepOnTitles(ScanLines(init), clean, IsTitleLine(clean), Patterns.HasDigit(clean));
      FlatMapSnoc(TitleOf, init, last);
    }
  }

  /**
   * One record per line with a title word, in order, titled by that line
   * stripped; an empty text has no record.
   */
  lemma ExperienceTitles(text: string)
    ensures Titles(Experience(text)) == if text == [] then [] else FlatMap(TitleOf, Lines(text))
    ensures |Experience(text)| == |Titles(Experience(text))|
  {
    if text != [] {
      ScanLinesTitles(Lines(text));
    }
  }

  /**
   * The company is the line right after the title line, and the years the
   * first later line with a digit: once set, neither changes until the next
   * title line.
   */
  lemma CompanyThenYears(sc: Scan, clean: string, title: bool, digit: bool)
    requires sc.current.Some? && clean != [] && !title
    ensures var e := sc.current.value;
            var next := StepOn(sc, clean, title, digit).current.value;
            && next.title == e.title
            && (e.company == [] ==> next == e.(company := clean))
            && (e.company != [] ==> next.company == e.company)
            && (e.company != [] && e.years == [] && digit ==> next == e.(years := clean))
            && (e.years != [] ==> next.years == e.years)
  {
  }

  /** A title line right after a title line opens a fresh record: the earlier one keeps no company. */
  lemma TitleLineOpens(sc: Scan, clean: string, digit: bool)
    requires clean != []
    ensures StepOn(sc, clean, true, digit) == Scan(Flush(sc), Some(Entry(clean, "", "", "")))
  {
  }

  /** Lines before the first title line leave no trace. */
  lemma {:induction false} NoTitleNoEntry(lines: seq<string>)
    requires forall line :: line in lines ==> TitleOf(line) == []
    ensures ScanLines(lines) == Scan([], None)
    decreases |lines|
  {
    if lines != [] {
      var init := lines[..|lines| - 1];
      assert forall line :: line in init ==> line in lines;
      NoTitleNoEntry(init);
      assert TitleOf(lines[|lines| - 1]) == [];
    }
  }

  /** The record as the dict the route builds. */
  function EntryValue(e: Entry): (r: PyValues.Value)
    ensures r.VDict? && PyValues.Keys(r.entries) == ["title", "company", "years", "description"]
  {
    var r := PyValues.VDict([("title", PyValues.VStr(e.title)), ("company", PyValues.VStr(e.company)),
                             ("years", PyValues.VStr(e.years)), ("description", PyValues.VStr(e.description))]);
    assert PyValues.Keys(r.entries) == ["title", "company", "years", "description"];
    r
  }

  /** The dict of an entry gives back each of its four fields under its own key. */
  lemma EntryValueFields(e: Entry)
    ensures var d := EntryValue(e).entries;
            && PyValues.Get(d, "title", PyValues.VNone) == PyValues.VStr(e.title)
            && PyValues.Get(d, "company", PyValues.VNone) == PyValues.VStr(e.company)
            && PyValues.Get(d, "years", PyValues.VNone) == PyValues.VStr(e.years)
            && PyValues.Get(d, "description", PyValues.VNone) == PyValues.VStr(e.description)
  {
    var last := [("description", PyValues.VStr(e.description))];
    var years := [("years", PyValues.VStr(e.years))] + last;
    var company := [("company", PyValues.VStr(e.company))] + years;
    var d := [("title", PyValues.VStr(e.title))] + company;
    assert EntryValue(e).entries == d;
    PyValues.GetCons("title", PyValues.VStr(e.title), company, "title", PyValues.VNone);
    PyValues.GetCons("title", PyValues.VStr(e.title), company, "company", PyValues.VNone);
    PyValues.GetCons("company", PyValues.VStr(e.company), years, "company", PyValues.VNone);
    PyValues.GetCons("title", PyValues.VStr(e.title), company, "years", PyValues.VNone);
    PyValues.GetCons("company", PyValues.VStr(e.company), years, "years", PyValues.VNone);
    PyValues.GetCons("years", PyValues.VStr(e.years), last, "years", PyValues.VNone);
    PyValues.GetCons("title", PyValues.VStr(e.title), company, "description", PyValues.VNone);
    PyValues.GetCons("company", PyValues.VStr(e.company), years, "description", PyValues.VNone);
    PyValues.GetCons("years", PyValues.VStr(e.years), last, "description", PyValues.VNone);
    PyValues.GetCons("description", PyValues.VStr(e.description), [], "description", PyValues.VNone);
  }

  /** The experience list: the dict of each entry, in entry order. */
  function EntryValues(entries: seq<Entry>): (r: seq<PyValues.Value>)
    ensures |r| == |entries|
    ensures forall i :: 0 <= i < |entries| ==> r[i] == EntryValue(entries[i])
  {
    seq(|entries|, i requires 0 <= i < |entries| => EntryValue(entries[i]))
  }

  /**
   * `parse_experience_text` on whatever `sections.get` gave: nothing for a
   * false value, the records for a string, and the `AttributeError` of
   * `.split` for anything else.
   */
  function ParseExperienceValue(v: PyValues.Value): (r: PyValues.Result<seq<Entry>>)
    ensures !PyValues.Truthy(v) ==> r == PyValues.Ok([])
    ensures r.Err? <==> PyValues.Truthy(v) && !v.VStr?
    ensures v.VStr? ==> r == PyValues.Ok(Experience(v.s))
  {
    if !PyValues.Truthy(v) then PyValues.Ok([])
    else if v.VStr? then PyValues.Ok(Experience(v.s))
    else PyValues.Err(PyValues.AttributeError("split"))
  }

  // ---------------------------------------------------------------------
  // parse_skills_text

  /**
   * The separator class as written: the file stores the bullet "•" as its
   * UTF-8 bytes read back as three characters, "â", "€" and "¢".
   */
  const AsWrittenSeparators: set<char> := {',', ';', '\U{E2}', '\U{20AC}', '\U{A2}', '\n'}

  /** The separators meant: comma, semicolon, bullet and newline. */
  const SkillSeparators: set<char> := {',', ';', '•', '\n'}

  /**
   * Even with `re` imported, the class as written would not split at a
   * bullet, and would split at a "¢" or a "€" inside a skill.
   */
  lemma AsWrittenSeparatorsMissBullet()
    ensures '•' in SkillSeparators && '•' !in AsWrittenSeparators
    ensures '\U{A2}' in AsWrittenSeparators && '\U{A2}' !in SkillSeparators
    ensures '\U{20AC}' in AsWrittenSeparators && '\U{20AC}' !in SkillSeparators
  {
  }

  /**
   * `parse_skills_text` as written: the module never imports `re`, so any
   * non-empty value reaches `re.split` and raises `NameError`.
   */
  function ParseSkillsAsWritten(v: PyValues.Value): (r: PyValues.Result<seq<string>>)
    ensures r.Err? <==> PyValues.Truthy(v)
  {
    if !PyValues.Truthy(v) then PyValues.Ok([]) else PyValues.Err(PyValues.NameError("re"))
  }

  /** The skills of a text: its separator-split pieces, stripped, the blank ones dropped, at most twenty. */
  function SkillPieces(text: string): (r: seq<string>)
    ensures |r| <= 20
    ensures forall x :: x in r ==> x != [] && Strip(x) == x
  {
    var stripped := StripAll(Split(text, SkillSeparators));
    var kept := Filter(stripped, NonBlank);
    var r := Prefix(kept, 20);
    assert forall x :: x in r ==> x in kept;
    r
  }

  /**
   * `parse_skills_text` with `re` imported and the bullet written as meant:
   * nothing for a false value, the pieces for a string, and the `TypeError`
   * of `re.split` for anything else.
   */
  function ParseSkills(v: PyValues.Value): (r: PyValues.Result<seq<string>>)
    ensures !PyValues.Truthy(v) ==> r == PyValues.Ok([])
    ensures r.Err? <==> PyValues.Truthy(v) && !v.VStr?
    ensures r.Ok? ==> |r.value| <= 20 && forall x :: x in r.value ==> x != [] && Strip(x) == x
  {
    if !PyValues.Truthy(v) then PyValues.Ok([])
    else if v.VStr? then PyValues.Ok(SkillPieces(v.s))
    else PyValues.Err(PyValues.TypeError("expected string or bytes-like object"))
  }

  /**
   * Skills joined by commas come back as they were, the first twenty of
   * them, when each is non-blank, stripped and free of separators.
   */
  lemma SkillsRoundTrip(skills: seq<string>)
    requires forall x :: x in skills ==> x != [] && Strip(x) == x && NoneOf(x, SkillSeparators)
    ensures ParseSkills(PyValues.VStr(Join(skills, ","))) == PyValues.Ok(Prefix(skills, 20))
  {
    if skills != [] {
      var text := Join(skills, ",");
      assert skills[0] in skills;
      JoinStartsWith(skills);
      SplitJoinSeps(skills, ',', SkillSeparators);
      assert Split(text, SkillSeparators) == skills;
      var stripped := StripAll(skills);
      forall i | 0 <= i < |skills|
        ensures stripped[i] == skills[i]
      {
        assert skills[i] in skills;
      }
      assert stripped == skills;
      FilterAll(skills, NonBlank);
      assert SkillPieces(text) == Prefix(skills, 20);
      assert PyValues.Truthy(PyValues.VStr(text));
      assert ParseSkills(PyValues.VStr(text)) == PyValues.Ok(SkillPieces(text));
    }
  }

  /** A word of letters holds no separator. */
  lemma LettersOnly(s: string)
    requires forall i :: 0 <= i < |s| ==> IsAlpha(s[i])
    ensures NoneOf(s, SkillSeparators)
  {
  }

  lemma JoinStartsWith(xs: seq<string>)
    requires xs != [] && xs[0] != []
    ensures Join(xs, ",") != [] && Join(xs, ",")[0] == xs[0][0]
  {
  }

  /**
   * As written every non-empty skills text raises `NameError`; the intended
   * parser lists the skills: "Python,SQL" gives ["Python", "SQL"].
   */
  lemma SkillsTextRaisesAsWritten()
    ensures ParseSkillsAsWritten(PyValues.VStr("Python,SQL")) == PyValues.Err(PyValues.NameError("re"))
    ensures ParseSkills(PyValues.VStr("Python,SQL")) == PyValues.Ok(["Python", "SQL"])
  {
    var skills := ["Python", "SQL"];
    assert Join(skills, ",") == "Python,SQL";
    forall x | x in skills
      ensures x != [] && Strip(x) == x && NoneOf(x, SkillSeparators)
    {
      if x == "Python" {
        StripStripped("Python");
        LettersOnly("Python");
      } else {
        assert x == "SQL";
        StripStripped("SQL");
        LettersOnly("SQL");
      }
    }
    SkillsRoundTrip(skills);
    assert Prefix(skills, 20) == skills;
  }

  // ---------------------------------------------------------------------
  // prepare_resume_data

  /** The template data, without `generated_date`. */
  datatype TemplateData = TemplateData(
    name: PyValues.Value, title: PyValues.Value, email: PyValues.Value, phone: PyValues.Value,
    location: PyValues.Value, summary: PyValues.Value, experience: PyValues.Value,
    skills: PyValues.Value, education: PyValues.Value, watermark: string)

  const Watermark := "Generated with Rezoom.ai"

  /** `resume_data["sections"]`, for a body that has it. */
  function SectionsOf(data: seq<(string, PyValues.Value)>): PyValues.Value
  {
    match PyValues.Lookup(data, "sections")
    case Some(v) => v
    case None => PyValues.VDict([])
  }

  /**
   * `value = data.get(key, default)`, then, if it is false and the body has
   * `sections`, `value = data["sections"].get(key, fallback)`; `.get` on a
   * `sections` that is no dict raises `AttributeError`.
   */
  function WithFallback(data: seq<(string, PyValues.Value)>, key: string, default: PyValues.Value, fallback: PyValues.Value)
    : (r: PyValues.Result<PyValues.Value>)
    ensures PyValues.Truthy(PyValues.Get(data, key, default)) || "sections" !in PyValues.Keys(data)
            ==> r == PyValues.Ok(PyValues.Get(data, key, default))
    ensures r.Err? ==> "sections" in PyValues.Keys(data) && !SectionsOf(data).VDict?
  {
    var top := PyValues.Get(data, key, default);
    if PyValues.Truthy(top) || "sections" !in PyValues.Keys(data) then PyValues.Ok(top)
    else PyValues.GetAttr(SectionsOf(data), key, fallback)
  }

  /** The experience value: the body's own, or the records parsed from the `sections` text. */
  function ExperienceValue(data: seq<(string, PyValues.Value)>): (r: PyValues.Result<PyValues.Value>)
    ensures PyValues.Truthy(PyValues.Get(data, "experience", PyValues.VList([]))) || "sections" !in PyValues.Keys(data)
            ==> r == PyValues.Ok(PyValues.Get(data, "experience", PyValues.VList([])))
    ensures !PyValues.Truthy(PyValues.Get(data, "experience", PyValues.VList([]))) && "sections" in PyValues.Keys(data)
            ==> if !SectionsOf(data).VDict? then r.Err?
                else var text := PyValues.Get(SectionsOf(data).entries, "experience", PyValues.VStr(""));
                  (r.Err? <==> PyValues.Truthy(text) && !text.VStr?) &&
                  (text.VStr? ==> r == PyValues.Ok(PyValues.VList(EntryValues(Experience(text.s)))))
  {
    var top := PyValues.Get(data, "experience", PyValues.VList([]));
    if PyValues.Truthy(top) || "sections" !in PyValues.Keys(data) then PyValues.Ok(top)
    else match PyValues.GetAttr(SectionsOf(data), "experience", PyValues.VStr(""))
      case Err(e) => PyValues.Err(e)
      case Ok(text) =>
        match ParseExperienceValue(text)
        case Err(e) => PyValues.Err(e)
        case Ok(entries) => PyValues.Ok(PyValues.VList(EntryValues(entries)))
  }

  /** The skills value: the body's own, or the list parsed from the `sections` text. */
  function SkillsValue(data: seq<(string, PyValues.Value)>): (r: PyValues.Result<PyValues.Value>)
    ensures PyValues.Truthy(PyValues.Get(data, "skills", PyValues.VList([]))) || "sections" !in PyValues.Keys(data)
            ==> r == PyValues.Ok(PyValues.Get(data, "skills", PyValues.VList([])))
    ensures !PyValues.Truthy(PyValues.Get(data, "skills", PyValues.VList([]))) && "sections" in PyValues.Keys(data)
            ==> if !SectionsOf(data).VDict? then r.Err?
                else var text := PyValues.Get(SectionsOf(data).entries, "skills", PyValues.VStr(""));
                  (r.Err? <==> PyValues.Truthy(text) && !text.VStr?) &&
                  (PyValues.Truthy(text) && text.VStr? ==> r == PyValues.Ok(PyValues.VList(PyValues.StrValues(SkillPieces(text.s)))))
  {
    var top := PyValues.Get(data, "skills", PyValues.VList([]));
    if PyValues.Truthy(top) || "sections" !in PyValues.Keys(data) then PyValues.Ok(top)
    else match PyValues.GetAttr(SectionsOf(data), "skills", PyValues.VStr(""))
      case Err(e) => PyValues.Err(e)
      case Ok(text) =>
        match ParseSkills(text)
        case Err(e) => PyValues.Err(e)
        case Ok(skills) => PyValues.Ok(PyValues.VList(PyValues.StrValues(skills)))
  }

  /** A contact field's value: the body's own when it has the key, whatever its type, else the default. */
  predicate ContactField(data: seq<(string, PyValues.Value)>, key: string, default: PyValues.Value, v: PyValues.Value)
  {
    match PyValues.Lookup(data, key)
    case Some(own) => v == own
    case None => v == default
  }

  /** The five contact fields. */
  datatype Contact = Contact(name: PyValues.Value, title: PyValues.Value, email: PyValues.Value, phone: PyValues.Value, location: PyValues.Value)

  /** `data.get(key, default)` for the five contact fields: the body's own value, whatever its type, or the fixed default. */
  function ContactOf(data: seq<(string, PyValues.Value)>): (c: Contact)
    ensures ContactField(data, "name", PyValues.VStr("Your Name"), c.name)
    ensures ContactField(data, "title", PyValues.VStr("Professional Title"), c.title)
    ensures ContactField(data, "email", PyValues.VStr("your.email@example.com"), c.email)
    ensures ContactField(data, "phone", PyValues.VStr("(555) 123-4567"), c.phone)
    ensures ContactField(data, "location", PyValues.VStr("City, State"), c.location)
  {
    Contact(
      PyValues.Get(data, "name", PyValues.VStr("Your Name")),
      PyValues.Get(data, "title", PyValues.VStr("Professional Title")),
      PyValues.Get(data, "email", PyValues.VStr("your.email@example.com")),
      PyValues.Get(data, "phone", PyValues.VStr("(555) 123-4567")),
      PyValues.Get(data, "location", PyValues.VStr("City, State")))
  }

  /** The four content fields. */
  datatype Contents = Contents(summary: PyValues.Value, experience: PyValues.Value, skills: PyValues.Value, education: PyValues.Value)

  /**
   * The four content fields with their `sections` fallbacks, evaluated in
   * the source's order (summary, experience, skills, education); the first
   * error is the one raised. A true top-level value is used as it is; a
   * body without `sections` never fails; an empty summary or education
   * takes the `sections` entry.
   */
  function ContentsOf(data: seq<(string, PyValues.Value)>): (r: PyValues.Result<Contents>)
    ensures r.Err? ==> "sections" in PyValues.Keys(data)
    ensures "sections" !in PyValues.Keys(data) ==> r == PyValues.Ok(Contents(
              PyValues.Get(data, "summary", PyValues.VStr("")), PyValues.Get(data, "experience", PyValues.VList([])),
              PyValues.Get(data, "skills", PyValues.VList([])), PyValues.Get(data, "education", PyValues.VStr(""))))
    ensures r.Ok? && PyValues.Truthy(PyValues.Get(data, "summary", PyValues.VStr("")))
            ==> r.value.summary == PyValues.Get(data, "summary", PyValues.VStr(""))
    ensures r.Ok? && PyValues.Truthy(PyValues.Get(data, "experience", PyValues.VList([])))
            ==> r.value.experience == PyValues.Get(data, "experience", PyValues.VList([]))
    ensures r.Ok? && PyValues.Truthy(PyValues.Get(data, "skills", PyValues.VList([])))
            ==> r.value.skills == PyValues.Get(data, "skills", PyValues.VList([]))
    ensures r.Ok? && PyValues.Truthy(PyValues.Get(data, "education", PyValues.VStr("")))
            ==> r.value.education == PyValues.Get(data, "education", PyValues.VStr(""))
    ensures r.Ok? && !PyValues.Truthy(PyValues.Get(data, "summary", PyValues.VStr(""))) && "sections" in PyValues.Keys(data)
            ==> SectionsOf(data).VDict? && r.value.summary == PyValues.Get(SectionsOf(data).entries, "summary", PyValues.VStr(""))
    ensures r.Ok? && !PyValues.Truthy(PyValues.Get(data, "education", PyValues.VStr(""))) && "sections" in PyValues.Keys(data)
            ==> SectionsOf(data).VDict? && r.value.education == PyValues.Get(SectionsOf(data).entries, "education", PyValues.VStr(""))
    ensures r.Ok? <==> WithFallback(data, "summary", PyValues.VStr(""), PyValues.VStr("")).Ok? && ExperienceValue(data).Ok?
                       && SkillsValue(data).Ok? && WithFallback(data, "education", PyValues.VStr(""), PyValues.VStr("")).Ok?
    ensures r.Ok? ==> r.value.experience == ExperienceValue(data).value && r.value.skills == SkillsValue(data).value
    ensures WithFallback(data, "summary", PyValues.VStr(""), PyValues.VStr("")).Err?
            ==> r == PyValues.Err(WithFallback(data, "summary", PyValues.VStr(""), PyValues.VStr("")).error)
    ensures WithFallback(data, "summary", PyValues.VStr(""), PyValues.VStr("")).Ok? && ExperienceValue(data).Err?
            ==> r == PyValues.Err(ExperienceValue(data).error)
  {
    var summary := WithFallback(data, "summary", PyValues.VStr(""), PyValues.VStr(""));
    var experience := ExperienceValue(data);
    var skills := SkillsValue(data);
    var education := WithFallback(data, "education", PyValues.VStr(""), PyValues.VStr(""));
    if summary.Err? then PyValues.Err(summary.error)
    else if experience.Err? then PyValues.Err(experience.error)
    else if skills.Err? then PyValues.Err(skills.error)
    else if education.Err? then PyValues.Err(education.error)
    else PyValues.Ok(Contents(summary.value, experience.value, skills.value, education.value))
  }

  /**
   * `prepare_resume_data`: the contact fields with their defaults, the
   * content fields with their fallbacks, and the watermark exactly when it
   * is asked for; it fails only where a fallback fails.
   */
  function PrepareResumeData(data: seq<(string, PyValues.Value)>, includeWatermark: bool): (r: PyValues.Result<TemplateData>)
    ensures r.Ok? <==> ContentsOf(data).Ok?
    ensures r.Ok? ==> r.value.watermark == if includeWatermark then "Generated with Rezoom.ai" else ""
    ensures r.Ok? ==> ContactOf(data) == Contact(r.value.name, r.value.title, r.value.email, r.value.phone, r.value.location)
    ensures r.Ok? ==> ContentsOf(data).value == Contents(r.value.summary, r.value.experience, r.value.skills, r.value.education)
  {
    match ContentsOf(data)
    case Err(e) => PyValues.Err(e)
    case Ok(c) =>
      var contact := ContactOf(data);
      PyValues.Ok(TemplateData(
        contact.name, contact.title, contact.email, contact.phone, contact.location,
        c.summary, c.experience, c.skills, c.education,
        if includeWatermark then Watermark else ""))
  }
}
