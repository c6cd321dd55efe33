/**
 * The data preparation half of `LaTeXRenderer` (backend/utils/latex_renderer.py):
 * `prepare_template_data` fills sixteen template fields from the resume
 * data with fixed defaults and then post-processes the experience, the
 * education and the skills, each only when it is non-empty;
 * `process_experience_data` and `process_education_data` turn every dict
 * of a list into a record with a fixed set of keys and drop everything
 * else; `process_skills_data` splits a comma-separated string and keeps
 * the items that are not blank. Rendering the template and compiling it
 * are not part of this model.
 */
module LatexRenderer {
  import opened Seqs
  import opened Text
  import opened PyValues

  /** The fields of an experience record with their defaults. */
  const ExperienceFields: seq<(string, Value)> := [
    ("title", VStr("")),
    ("company", VStr("")),
    ("location", VStr("")),
    ("start_date", VStr("")),
    ("end_date", VStr("")),
    ("current", VBool(false)),
    ("description", VStr("")),
    ("achievements", VList([]))]

  /** The fields of an education record with their defaults. */
  const EducationFields: seq<(string, Value)> := [
    ("degree", VStr("")),
    ("institution", VStr("")),
    ("location", VStr("")),
    ("graduation_date", VStr("")),
    ("gpa", VStr("")),
    ("relevant_coursework", VList([]))]

  /** The dict literal `{key: d.get(key, default), ...}` over a list of fields. */
  function GetAll(d: seq<(string, Value)>, fields: seq<(string, Value)>): (r: seq<(string, Value)>)
    ensures |r| == |fields|
    ensures forall i :: 0 <= i < |fields| ==> r[i] == (fields[i].0, Get(d, fields[i].0, fields[i].1))
    ensures Keys(r) == Keys(fields)
  {
    seq(|fields|, i requires 0 <= i < |fields| => (fields[i].0, Get(d, fields[i].0, fields[i].1)))
  }

  /** A record built from a dict with none of the fields holds exactly the defaults. */
  lemma {:induction false} GetAllMissing(d: seq<(string, Value)>, fields: seq<(string, Value)>)
    requires forall i :: 0 <= i < |fields| ==> fields[i].0 !in Keys(d)
    ensures GetAll(d, fields) == fields
  {
    var r := GetAll(d, fields);
    forall i | 0 <= i < |fields|
      ensures r[i] == fields[i]
    {
      assert fields[i].0 !in Keys(d);
    }
  }

  // ---------------------------------------------------------------------
  // process_experience_data / process_education_data

  predicate IsDict(v: Value) { v.VDict? }

  /** What the loop appends for one item: a record for a dict, nothing otherwise. */
  function Record(v: Value, fields: seq<(string, Value)>): seq<Value>
  {
    if v.VDict? then [VDict(GetAll(v.entries, fields))] else []
  }

  /** The records the loop collects from a list of items. */
  function Records(items: seq<Value>, fields: seq<(string, Value)>): (r: seq<Value>)
    ensures |r| <= |items|
    ensures forall x :: x in r ==> x.VDict? && Keys(x.entries) == Keys(fields)
    decreases |items|
  {
    if items == [] then []
    else Records(items[..|items| - 1], fields) + Record(items[|items| - 1], fields)
  }

  lemma RecordsSnoc(items: seq<Value>, x: Value, fields: seq<(string, Value)>)
    ensures Records(items + [x], fields) == Records(items, fields) + Record(x, fields)
  {
    assert (items + [x])[..|items|] == items;
  }

  /**
   * The records are the dicts of the list, in order, one each: the k-th
   * record is built from the k-th dict and nothing else is kept.
   */
  lemma {:induction false} RecordsOfDicts(items: seq<Value>, fields: seq<(string, Value)>)
    ensures |Records(items, fields)| == |Filter(items, IsDict)|
    ensures forall k :: 0 <= k < |Records(items, fields)| ==>
              Filter(items, IsDict)[k].VDict? && Records(items, fields)[k] == VDict(GetAll(Filter(items, IsDict)[k].entries, fields))
    decreases |items|
  {
    if items != [] {
      var init, last := items[..|items| - 1], items[|items| - 1];
      assert items == init + [last];
      RecordsOfDicts(init, fields);
      FilterAppend(init, [last], IsDict);
      FilterOne(last, IsDict);
      var ds, ds0 := Filter(items, IsDict), Filter(init, IsDict);
      var rs, rs0 := Records(items, fields), Records(init, fields);
      assert ds == ds0 + (if last.VDict? then [last] else []);
      assert rs == rs0 + Record(last, fields);
      forall k | 0 <= k < |rs|
        ensures ds[k].VDict? && rs[k] == VDict(GetAll(ds[k].entries, fields))
      {
        if k < |rs0| {
          assert ds[k] == ds0[k] && rs[k] == rs0[k];
        } else {
          assert ds[k] == last;
        }
      }
    }
  }

  /** Items none of which is a dict give no record. */
  lemma {:induction false} RecordsNoDicts(items: seq<Value>, fields: seq<(string, Value)>)
    requires forall x :: x in items ==> !x.VDict?
    ensures Records(items, fields) == []
    decreases |items|
  {
    if items != [] {
      assert forall x :: x in items[..|items| - 1] ==> x in items;
      RecordsNoDicts(items[..|items| - 1], fields);
    }
  }

  /**
   * `for job in value: if isinstance(job, dict): processed.append({...})`:
   * a list gives the records of its dicts; a string or a dict is iterable
   * but yields only strings, so it gives none; anything else is not
   * iterable and raises.
   */
  function ProcessedRecords(v: Value, fields: seq<(string, Value)>): (r: Result<seq<Value>>)
    ensures r.Err? <==> !(v.VList? || v.VStr? || v.VDict?)
    ensures v.VList? ==> r == Ok(Records(v.items, fields))
    ensures v.VStr? || v.VDict? ==> r == Ok([])
    ensures r.Ok? ==> forall x :: x in r.value ==> x.VDict? && Keys(x.entries) == Keys(fields)
  {
    match Iterate(v)
    case Err(e) => Err(e)
    case Ok(items) =>
      if v.VList? then Ok(Records(items, fields))
      else
        RecordsNoDicts(items, fields);
        Ok(Records(items, fields))
  }

  /** The loop of `process_experience_data` and `process_education_data`. */
  method CollectRecords(items: seq<Value>, fields: seq<(string, Value)>) returns (processed: seq<Value>)
    ensures processed == Records(items, fields)
  {
    processed := [];
    var i := 0;
    while i < |items|
      invariant 0 <= i <= |items|
      invariant processed == Records(items[..i], fields)
    {
      TakeOneMore(items, i);
      RecordsSnoc(items[..i], items[i], fields);
      var job := items[i];
      if job.VDict? {
        processed := processed + [VDict(GetAll(job.entries, fields))];
      }
      i := i + 1;
    }
    assert items[..|items|] == items;
  }

  /** `process_experience_data`: every dict becomes a record with the eight experience keys. */
  method ProcessExperienceData(experience: Value) returns (r: Result<seq<Value>>)
    ensures r == ProcessedRecords(experience, ExperienceFields)
  {
    var items := Iterate(experience);
    if items.Err? {
      return Err(items.error);
    }
    var processed := CollectRecords(items.value, ExperienceFields);
    return Ok(processed);
  }

  /** `process_education_data`: every dict becomes a record with the six education keys. */
  method ProcessEducationData(education: Value) returns (r: Result<seq<Value>>)
    ensures r == ProcessedRecords(education, EducationFields)
  {
    var items := Iterate(education);
    if items.Err? {
      return Err(items.error);
    }
    var processed := CollectRecords(items.value, EducationFields);
    return Ok(processed);
  }

  // ---------------------------------------------------------------------
  // process_skills_data

  /** The filter `if skill.strip()` on a string item. */
  predicate NotBlank(x: string) { Strip(x) != [] }

  /** The same filter on any item; only a string has `strip`. */
  predicate SkillKept(x: Value) { x.VStr? && NotBlank(x.s) }

  /**
   * `[skill for skill in items if skill.strip()]`: the items in order,
   * evaluated front to back, the first one that is not a string raising
   * `AttributeError`.
   */
  function KeepSkills(items: seq<Value>): (r: Result<seq<Value>>)
    ensures r.Err? <==> exists x :: x in items && !x.VStr?
    ensures r.Ok? ==> r.value == Filter(items, SkillKept)
  {
    if items == [] then Ok([])
    else if !items[0].VStr? then Err(AttributeError("strip"))
    else
      var rest := KeepSkills(items[1..]);
      assert forall x :: x in items ==> x == items[0] || x in items[1..];
      match rest
      case Err(e) => Err(e)
      case Ok(kept) => Ok((if NotBlank(items[0].s) then [items[0]] else []) + kept)
  }

  /** `[skill.strip() for skill in skills.split(',')]` on a string. */
  function CommaPieces(s: string): (r: seq<string>)
    ensures |r| >= 1
    ensures forall x :: x in r ==> Strip(x) == x && ',' !in x
  {
    var pieces := Split(s, {','});
    var r := StripAll(pieces);
    assert forall i :: 0 <= i < |r| ==> ',' !in r[i] by {
      forall i | 0 <= i < |r| ensures ',' !in r[i] {
        assert NoneOf(pieces[i], {','});
        assert forall c :: c in r[i] ==> c in pieces[i];
      }
    }
    r
  }

  /**
   * `process_skills_data`: a string is split on commas and each piece
   * stripped; then the items whose strip is not blank are kept, in order.
   */
  function ProcessSkills(v: Value): (r: Result<seq<Value>>)
    ensures v.VStr? ==> r.Ok? && forall x :: x in r.value ==> x.VStr? && x.s != [] && Strip(x.s) == x.s && ',' !in x.s
    ensures v.VStr? ==> r == Ok(StrValues(Filter(CommaPieces(v.s), NotBlank)))
    ensures !v.VStr? ==> (r.Err? <==> !(v.VList? || v.VDict?) || (v.VList? && exists x :: x in v.items && !x.VStr?))
    ensures v.VList? && r.Ok? ==> IsSubseq(r.value, v.items)
    ensures v.VList? && r.Ok? ==> forall x :: x in v.items ==> (x in r.value <==> NotBlank(x.s))
  {
    if v.VStr? then
      var kept := Filter(CommaPieces(v.s), NotBlank);
      var r := StrValues(kept);
      assert forall x :: x in r ==> x.VStr? && x.s in kept by {
        forall x | x in r ensures x.VStr? && x.s in kept {
          var i :| 0 <= i < |r| && r[i] == x;
        }
      }
      Ok(r)
    else
      match Iterate(v)
      case Err(e) => Err(e)
      case Ok(items) =>
        var r := KeepSkills(items);
        if v.VList? && r.Ok? then FilterIsSubseq(items, SkillKept); r
        else r
  }

  /**
   * Skills written out comma-separated come back as the same list, when
   * each is non-blank, stripped and free of commas.
   */
  lemma SkillsStringRoundTrip(skills: seq<string>)
    requires |skills| >= 1
    requires forall x :: x in skills ==> x != [] && Strip(x) == x && ',' !in x
    ensures ProcessSkills(VStr(Join(skills, ","))) == Ok(StrValues(skills))
  {
    assert forall x :: x in skills ==> NoneOf(x, {','});
    SplitJoinSeps(skills, ',', {','});
    assert Split(Join(skills, ","), {','}) == skills;
    var stripped := StripAll(skills);
    forall i | 0 <= i < |skills|
      ensures stripped[i] == skills[i]
    {
      assert skills[i] in skills;
    }
    assert stripped == skills;
    assert CommaPieces(Join(skills, ",")) == skills;
    FilterAll(skills, NotBlank);
  }

  /** Processing the skills a second time changes nothing. */
  lemma SkillsIdempotent(v: Value)
    requires ProcessSkills(v).Ok?
    ensures ProcessSkills(VList(ProcessSkills(v).value)) == ProcessSkills(v)
  {
    var once := ProcessSkills(v).value;
    ProcessedSkillsKept(v);
    KeptSkillsStay(once);
  }

  /** Every processed skill is a string that is not blank. */
  lemma ProcessedSkillsKept(v: Value)
    requires ProcessSkills(v).Ok?
    ensures forall x :: x in ProcessSkills(v).value ==> SkillKept(x)
  {
    var once := ProcessSkills(v).value;
    if v.VStr? {
      forall x | x in once
        ensures SkillKept(x)
      {
        assert x.VStr? && x.s != [] && Strip(x.s) == x.s;
      }
    } else {
      var items := Iterate(v).value;
      assert once == Filter(items, SkillKept);
    }
  }

  /** A list of non-blank strings is processed to itself. */
  lemma KeptSkillsStay(skills: seq<Value>)
    requires forall x :: x in skills ==> SkillKept(x)
    ensures ProcessSkills(VList(skills)) == Ok(skills)
  {
    FilterAll(skills, SkillKept);
    assert Iterate(VList(skills)) == Ok(skills);
    assert KeepSkills(skills) == Ok(skills);
  }

  // ---------------------------------------------------------------------
  // prepare_template_data

  /** The sixteen template fields. */
  datatype TemplateData = TemplateData(
    name: Value, title: Value, email: Value, phone: Value, location: Value,
    linkedin: Value, website: Value, summary: Value,
    experience: Value, education: Value, skills: Value,
    certifications: Value, projects: Value, languages: Value,
    watermark: Value, generatedDate: Value)

  /** The first dict of `prepare_template_data`: every field the resume's own value or its default. */
  function Basic(resume: seq<(string, Value)>): TemplateData
  {
    TemplateData(
      Get(resume, "name", VStr("Your Name")),
      Get(resume, "title", VStr("Professional Title")),
      Get(resume, "email", VStr("your.email@example.com")),
      Get(resume, "phone", VStr("(555) 123-4567")),
      Get(resume, "location", VStr("City, State")),
      Get(resume, "linkedin", VStr("")),
      Get(resume, "website", VStr("")),
      Get(resume, "summary", VStr("")),
      Get(resume, "experience", VList([])),
      Get(resume, "education", VList([])),
      Get(resume, "skills", VList([])),
      Get(resume, "certifications", VList([])),
      Get(resume, "projects", VList([])),
      Get(resume, "languages", VList([])),
      Get(resume, "watermark", VStr("")),
      Get(resume, "generated_date", VStr("")))
  }

  /** The post-processed value of a field: the processed list when the value is true, the value itself otherwise. */
  function Refined(own: Value, processed: Result<seq<Value>>): (r: Result<Value>)
    ensures !Truthy(own) ==> r == Ok(own)
    ensures r.Err? <==> Truthy(own) && processed.Err?
  {
    if !Truthy(own) then Ok(own)
    else match processed
      case Err(e) => Err(e)
      case Ok(items) => Ok(VList(items))
  }

  function OwnExperience(resume: seq<(string, Value)>): Result<Value>
  {
    var own := Get(resume, "experience", VList([]));
    Refined(own, ProcessedRecords(own, ExperienceFields))
  }

  function OwnEducation(resume: seq<(string, Value)>): Result<Value>
  {
    var own := Get(resume, "education", VList([]));
    Refined(own, ProcessedRecords(own, EducationFields))
  }

  function OwnSkills(resume: seq<(string, Value)>): Result<Value>
  {
    var own := Get(resume, "skills", VList([]));
    Refined(own, ProcessSkills(own))
  }

  /**
   * `prepare_template_data`: the sixteen fields, each the resume's own
   * value or its default, with experience, education and skills replaced
   * by their processed lists when they are non-empty; it raises when one of
   * those cannot be processed.
   */
  method PrepareTemplateData(resume: seq<(string, Value)>) returns (r: Result<TemplateData>)
    ensures r.Err? <==> OwnExperience(resume).Err? || OwnEducation(resume).Err? || OwnSkills(resume).Err?
    ensures r.Ok? ==> r.value == Basic(resume).(
              experience := OwnExperience(resume).value,
              education := OwnEducation(resume).value,
              skills := OwnSkills(resume).value)
  {
    var data := Basic(resume);
    if Truthy(data.experience) {
      var processed := ProcessExperienceData(data.experience);
      if processed.Err? {
        return Err(processed.error);
      }
      data := data.(experience := VList(processed.value));
    }
    if Truthy(data.education) {
      var processed := ProcessEducationData(data.education);
      if processed.Err? {
        return Err(processed.error);
      }
      data := data.(education := VList(processed.value));
    }
    if Truthy(data.skills) {
      var processed := ProcessSkills(data.skills);
      if processed.Err? {
        return Err(processed.error);
      }
      data := data.(skills := VList(processed.value));
    }
    return Ok(data);
  }

  /** An empty resume gives the defaults, none of them post-processed. */
  lemma EmptyResumeDefaults()
    ensures OwnExperience([]) == Ok(VList([])) && OwnEducation([]) == Ok(VList([])) && OwnSkills([]) == Ok(VList([]))
    ensures Basic([]).name == VStr("Your Name") && Basic([]).summary == VStr("")
  {
  }
}
