/** The job-description agent (`src/agents/job_description_agent.py`): the
    choice between the text processor and the built-in parser, the built-in
    parser itself (first-match experience and education, bullet items classified
    into skills and responsibilities) and the plain-text summary. */
module JobDescriptionAgent {
  import opened Wrappers
  import opened Text
  import opened Records
  import opened TextProcessor

  // ----- `_basic_parse_job_description` -----

  function YearsThenExperience(): Pattern {
    Pattern("(?i)(\\d+\\+?\\s" + "*years?.*?experi" + "ence.*?)[\\.\\n]", false)
  }

  function ExperienceThenYears(): Pattern {
    Pattern("(?i)(experience." + "*?\\d+\\+?\\s*ye" + "ars?)[\\.\\n]", false)
  }

  function DegreeThenField(): Pattern {
    Pattern("(?i)(Bachelor\\'" + "s|Master\\'s|PhD" + "|degree|diploma)" + ".*?(\\w+\\s+\\w+"
            + "|\\w+)[\\.\\n]", false)
  }

  function EducationThenDegree(): Pattern {
    Pattern("(?i)(education|q" + "ualification).*?" + "(degree|Bachelor" + "|Master|PhD)[\\."
            + "\\n]", false)
  }

  /** The experience patterns in the order they are tried. */
  function ExperiencePatterns(): seq<Pattern> {
    [YearsThenExperience(), ExperienceThenYears()]
  }

  /** The education patterns in the order they are tried. */
  function EducationPatterns(): seq<Pattern> {
    [DegreeThenField(), EducationThenDegree()]
  }

  /** The phrases that make a bullet item a skill. */
  function SkillCues(): seq<string> {
    ["ability to", "experience with", "knowledge of", "proficiency", "familiar with"]
  }

  /** The verbs that make a bullet item a responsibility. */
  function DutyVerbs(): seq<string> {
    ["develop", "design", "implement", "manage", "create", "build", "analyze", "oversee", "lead"]
  }

  /** The alternatives of the pattern `re.sub` removes from a skill, in
      order; note "proficiency in" here against "proficiency" above. */
  function RemovedCues(): seq<string> {
    ["ability to", "experience with", "knowledge of", "proficiency in", "familiar with"]
  }

  /** `any(word in s for word in words)`. */
  predicate AnyContains(s: string, words: seq<string>) {
    words != [] && (Contains(s, words[0]) || AnyContains(s, words[1..]))
  }

  /** Some word occurs exactly when the search succeeds. */
  lemma {:induction false} AnyContainsSome(s: string, words: seq<string>)
    ensures AnyContains(s, words) <==> exists k :: 0 <= k < |words| && Contains(s, words[k])
  {
    if words != [] {
      AnyContainsSome(s, words[1..]);
      assert forall k :: 1 <= k < |words| ==> words[k] == words[1..][k - 1];
    }
  }

  /** The length of the first alternative of `cues` that matches at the start
      of `s`, ignoring ASCII case; 0 when none does. */
  function CueLengthAt(s: string, cues: seq<string>): (n: nat)
    ensures n <= |s|
    ensures n > 0 ==> exists k :: 0 <= k < |cues| && |cues[k]| == n && Lower(s[..n]) == cues[k]
  {
    if cues == [] then 0
    else if |cues[0]| > 0 && |cues[0]| <= |s| && Lower(s[..|cues[0]|]) == cues[0] then |cues[0]|
    else
      var n := CueLengthAt(s, cues[1..]);
      assert n > 0 ==> exists k :: 1 <= k < |cues| && |cues[k]| == n && Lower(s[..n]) == cues[k] by {
        if n > 0 {
          var k :| 0 <= k < |cues[1..]| && |cues[1..][k]| == n && Lower(s[..n]) == cues[1..][k];
          assert cues[k + 1] == cues[1..][k];
        }
      }
      n
  }

  /** `re.sub(r'(?i)ability to|...|familiar with', '', s)`: scanning left to
      right, every occurrence of an alternative is deleted. */
  function RemoveCues(s: string): (r: string)
    ensures |r| <= |s|
    decreases |s|
  {
    if s == [] then []
    else
      var n := CueLengthAt(s, RemovedCues());
      if n > 0 then RemoveCues(s[n..]) else [s[0]] + RemoveCues(s[1..])
  }

  /** Text in which no alternative starts anywhere is left unchanged. */
  lemma {:induction false} RemoveCuesNoCue(s: string)
    requires forall i :: 0 <= i < |s| ==> CueLengthAt(s[i..], RemovedCues()) == 0
    ensures RemoveCues(s) == s
    decreases |s|
  {
    if s != [] {
      assert s[0..] == s;
      forall i | 0 <= i < |s[1..]| ensures CueLengthAt(s[1..][i..], RemovedCues()) == 0 {
        assert s[1..][i..] == s[i + 1..];
      }
      RemoveCuesNoCue(s[1..]);
    }
  }

  /** How one bullet item is classified. */
  datatype Bullet = Blank | Skill(text: string) | Duty(text: string)

  /** One bullet item: stripped; empty ones skipped; a skill cue makes it a
      skill with the cue removed, else a verb makes it a responsibility, else
      it is a skill. */
  function Classify(raw: string): Bullet {
    var item := Strip(raw);
    if item == "" then Blank
    else if AnyContains(Lower(item), SkillCues()) then Skill(Strip(RemoveCues(item)))
    else if AnyContains(Lower(item), DutyVerbs()) then Duty(item)
    else Skill(item)
  }

  /** The classification of every item. */
  function Kinds(items: seq<string>): (bs: seq<Bullet>)
    ensures |bs| == |items|
  {
    Map(Classify, items)
  }

  /** The skills among the classified items, in order. */
  function SkillsIn(bs: seq<Bullet>): seq<string> {
    if bs == [] then []
    else SkillsIn(bs[..|bs| - 1]) + if bs[|bs| - 1].Skill? then [bs[|bs| - 1].text] else []
  }

  /** The responsibilities among the classified items, in order. */
  function DutiesIn(bs: seq<Bullet>): seq<string> {
    if bs == [] then []
    else DutiesIn(bs[..|bs| - 1]) + if bs[|bs| - 1].Duty? then [bs[|bs| - 1].text] else []
  }

  /** The number of items that are not blank. */
  function Listed(bs: seq<Bullet>): nat {
    if bs == [] then 0 else Listed(bs[..|bs| - 1]) + if bs[|bs| - 1].Blank? then 0 else 1
  }

  /** Group `k` of the first pattern's match, stripped, or "" when no
      pattern matches. */
  function FirstGroup(re: Regex, patterns: seq<Pattern>, text: string, k: nat): string {
    match FirstSearch(re, patterns, text)
    case None => ""
    case Some(m) => Strip(Group(m.1, k))
  }

  /** The record `_basic_parse_job_description` returns. */
  function BasicJob(re: Regex, title: string, description: string): JobRecord {
    var items := BulletItems(re.findall(BulletPattern(), description));
    JobRecord(Some(title), Some(description), SkillsIn(Kinds(items)), [],
              FirstGroup(re, ExperiencePatterns(), description, 1),
              FirstGroup(re, EducationPatterns(), description, 0),
              DutiesIn(Kinds(items)))
  }

  /** The "first pattern wins" loop: the groups of the first match. */
  method FirstMatch(re: Regex, patterns: seq<Pattern>, text: string) returns (r: Option<Groups>)
    ensures r.None? <==> FirstSearch(re, patterns, text).None?
    ensures r.Some? ==> r.value == FirstSearch(re, patterns, text).value.1
  {
    r := None;
    var i := 0;
    while i < |patterns|
      invariant 0 <= i <= |patterns|
      invariant forall j :: 0 <= j < i ==> re.search(patterns[j], text).None?
    {
      var m := re.search(patterns[i], text);
      if m.Some? {
        r := m;
        return;
      }
      i := i + 1;
    }
  }

  /** One more classified item read. */
  lemma ClassifySnoc(bs: seq<Bullet>, i: nat)
    requires i < |bs|
    ensures SkillsIn(bs[..i + 1]) == SkillsIn(bs[..i]) + (if bs[i].Skill? then [bs[i].text] else [])
    ensures DutiesIn(bs[..i + 1]) == DutiesIn(bs[..i]) + (if bs[i].Duty? then [bs[i].text] else [])
  {
    assert bs[..i + 1][..i] == bs[..i];
  }

  /** Every non-blank item lands in exactly one of the two lists: together
      they are as long as the number of non-blank items. */
  lemma {:induction false} PartitionCount(bs: seq<Bullet>)
    ensures |SkillsIn(bs)| + |DutiesIn(bs)| == Listed(bs)
  {
    if bs != [] {
      PartitionCount(bs[..|bs| - 1]);
    }
  }

  /** The non-blank items are the items that are not empty once stripped. */
  lemma {:induction false} ListedNonBlank(items: seq<string>)
    ensures Listed(Kinds(items)) == |StrippedNonEmpty(items)|
  {
    if items != [] {
      var init, last := items[..|items| - 1], items[|items| - 1];
      ListedNonBlank(init);
      var bs := Kinds(items);
      assert bs[..|bs| - 1] == Kinds(init);
      assert bs[|bs| - 1] == Classify(last);
      BlankIffEmpty(last);
      assert Listed(bs) == Listed(Kinds(init)) + if bs[|bs| - 1].Blank? then 0 else 1;
    }
  }

  /** Classifying a concatenation concatenates the classified parts, so both lists
      keep the items' order. */
  lemma {:induction false} ClassifyAppend(a: seq<Bullet>, b: seq<Bullet>)
    ensures SkillsIn(a + b) == SkillsIn(a) + SkillsIn(b)
    ensures DutiesIn(a + b) == DutiesIn(a) + DutiesIn(b)
    decreases |b|
  {
    if b == [] {
      assert a + b == a;
    } else {
      var b0 := b[..|b| - 1];
      assert (a + b)[..|a + b| - 1] == a + b0;
      ClassifyAppend(a, b0);
    }
  }

  /** Classifying a concatenation classifies the parts. */
  lemma KindsAppend(a: seq<string>, b: seq<string>)
    ensures Kinds(a + b) == Kinds(a) + Kinds(b)
  {
    MapAppend(Classify, a, b);
  }

  /** A responsibility comes from some item classified as it. */
  lemma {:induction false} DutyIndex(bs: seq<Bullet>, d: string) returns (k: nat)
    requires d in DutiesIn(bs)
    ensures k < |bs| && bs[k] == Duty(d)
  {
    var init := bs[..|bs| - 1];
    if d in DutiesIn(init) {
      k := DutyIndex(init, d);
    } else {
      k := |bs| - 1;
    }
  }

  /** A responsibility is a stripped item that holds a verb and no skill cue. */
  lemma DutySound(items: seq<string>, d: string) returns (k: nat)
    requires d in DutiesIn(Kinds(items))
    ensures k < |items| && d == Strip(items[k]) && d != ""
    ensures !AnyContains(Lower(d), SkillCues()) && AnyContains(Lower(d), DutyVerbs())
  {
    k := DutyIndex(Kinds(items), d);
  }

  /** A non-blank item is classified as a skill or as a responsibility, and
      its text is in the corresponding list. */
  lemma {:induction false} ItemLands(bs: seq<Bullet>, k: nat)
    requires k < |bs| && !bs[k].Blank?
    ensures bs[k].Skill? ==> bs[k].text in SkillsIn(bs)
    ensures bs[k].Duty? ==> bs[k].text in DutiesIn(bs)
  {
    var init := bs[..|bs| - 1];
    if k < |init| {
      assert init[k] == bs[k];
      ItemLands(init, k);
    }
  }

  /** Only blank items are dropped. */
  lemma BlankIffEmpty(raw: string)
    ensures Classify(raw).Blank? <==> Strip(raw) == ""
  {
  }

  /** The record has the title and description given, no preferred skills,
      and experience and education from the first pattern that matches,
      even when a later one matches too; "" when none does. */
  lemma BasicJobFacts(re: Regex, title: string, description: string)
    ensures var job := BasicJob(re, title, description);
            var e0 := re.search(ExperiencePatterns()[0], description);
            var e1 := re.search(ExperiencePatterns()[1], description);
            var d0 := re.search(EducationPatterns()[0], description);
            var d1 := re.search(EducationPatterns()[1], description);
            && job.title == Some(title) && job.description == Some(description) && job.preferredSkills == []
            && (e0.Some? ==> job.requiredExperience == Strip(Group(e0.value, 1)))
            && (e0.None? && e1.Some? ==> job.requiredExperience == Strip(Group(e1.value, 1)))
            && (e0.None? && e1.None? ==> job.requiredExperience == "")
            && (d0.Some? ==> job.requiredEducation == Strip(Group(d0.value, 0)))
            && (d0.None? && d1.Some? ==> job.requiredEducation == Strip(Group(d1.value, 0)))
            && (d0.None? && d1.None? ==> job.requiredEducation == "")
  {
    var e := FirstSearch(re, ExperiencePatterns(), description);
    var d := FirstSearch(re, EducationPatterns(), description);
  }

  /** The classification loop of `_basic_parse_job_description`: every item
      stripped, blank ones skipped, the rest appended to the skills or to
      the responsibilities. */
  method ClassifyBullets(items: seq<string>) returns (skills: seq<string>, duties: seq<string>)
    ensures skills == SkillsIn(Kinds(items)) && duties == DutiesIn(Kinds(items))
  {
    skills, duties := [], [];
    ghost var bs := Kinds(items);
    var i := 0;
    while i < |items|
      invariant 0 <= i <= |items|
      invariant skills == SkillsIn(bs[..i]) && duties == DutiesIn(bs[..i])
    {
      ClassifySnoc(bs, i);
      var item := Strip(items[i]);
      if item != "" {
        var lowerItem := Lower(item);
        if AnyContains(lowerItem, SkillCues()) {
          var skill := Strip(RemoveCues(item));
          skills := skills + [skill];
        } else if AnyContains(lowerItem, DutyVerbs()) {
          duties := duties + [item];
        } else {
          skills := skills + [item];
        }
      }
      i := i + 1;
    }
    assert bs[..i] == bs;
  }

  /** `_basic_parse_job_description`. */
  method BasicParse(re: Regex, title: string, description: string) returns (job: JobRecord)
    ensures job == BasicJob(re, title, description)
  {
    job := JobRecord(Some(title), Some(description), [], [], "", "", []);
    var exp := FirstMatch(re, ExperiencePatterns(), description);
    if exp.Some? {
      job := job.(requiredExperience := Strip(Group(exp.value, 1)));
    }
    var edu := FirstMatch(re, EducationPatterns(), description);
    if edu.Some? {
      job := job.(requiredEducation := Strip(Group(edu.value, 0)));
    }
    var items := BulletItems(re.findall(BulletPattern(), description));
    var skills, duties := ClassifyBullets(items);
    job := job.(requiredSkills := skills, responsibilities := duties);
  }

  // ---- process_job_description ----

  /** `process_job_description`: the text processor's parser when there is
      one, the rule-based parser otherwise. */
  method ProcessJobDescription(tp: Option<Processor>, re: Regex, title: string, description: string)
    returns (job: JobRecord)
    ensures tp.Some? ==> job == ParsedJob(tp.value, re, description, title)
    ensures tp.None? ==> job == BasicJob(re, title, description)
  {
    if tp.Some? {
      job := ParseJobDescription(tp.value, re, description, title);
    } else {
      job := BasicParse(re, title, description);
    }
  }

  /** Only the rule-based parser keeps the description: the record carries
      it exactly when there is no text processor, and the title is always
      the one given unless a language model replaced it. */
  lemma DispatchFacts(tp: Option<Processor>, re: Regex, title: string, description: string)
    ensures tp.Some? ==> ParsedJob(tp.value, re, description, title).description.None?
    ensures tp.Some? && tp.value.llm.None? ==> ParsedJob(tp.value, re, description, title).title == Some(title)
    ensures tp.None? ==> && BasicJob(re, title, description).description == Some(description)
                         && BasicJob(re, title, description).title == Some(title)
  {
    if tp.Some? {
      ParsedJobFacts(tp.value, re, description, title);
    } else {
      BasicJobFacts(re, title, description);
    }
  }

  // ---- summarize_job_description ----

  /** A titled list of bullet lines followed by a blank line, or nothing
      when the list is empty. */
  function ListSection(heading: string, items: seq<string>): string {
    if items == [] then "" else heading + BulletLines(items) + "\n"
  }

  /** A labelled line followed by a blank line, or nothing when the value
      is empty. */
  function ValueLine(caption: string, value: string): string {
    if value == "" then "" else caption + value + "\n\n"
  }

  function SummaryHeader(job: JobRecord): string {
    "Job Summary: " + job.title.GetOr("Unknown Position") + "\n\n"
  }

  /** The parts of the summary, in order. */
  function SummaryPieces(job: JobRecord): seq<string> {
    [SummaryHeader(job),
     ListSection("Key Responsibilities:\n", Take(job.responsibilities, 5)),
     ListSection("Required Skills:\n", job.requiredSkills),
     ListSection("Preferred Skills:\n", job.preferredSkills),
     ValueLine("Required Experience: ", job.requiredExperience),
     ValueLine("Required Education: ", job.requiredEducation)]
  }

  /** The text `summarize_job_description` returns. */
  function JobSummary(job: JobRecord): string {
    Concat(SummaryPieces(job))
  }

  /** Appends a titled list unless the list is empty. */
  method AppendSection(text: string, heading: string, items: seq<string>) returns (r: string)
    ensures r == text + ListSection(heading, items)
  {
    r := text;
    if items != [] {
      r := r + heading;
      r := AppendBullets(r, items);
      r := r + "\n";
    }
  }

  /** Appends a labelled line unless the value is empty. */
  method AppendValueLine(text: string, caption: string, value: string) returns (r: string)
    ensures r == text + ValueLine(caption, value)
  {
    r := text;
    if value != "" {
      r := r + caption + value + "\n\n";
    }
  }

  /** `summarize_job_description`. */
  method SummarizeJob(job: JobRecord) returns (summary: string)
    ensures summary == JobSummary(job)
  {
    summary := "Job Summary: " + job.title.GetOr("Unknown Position") + "\n\n";
    summary := AppendSection(summary, "Key Responsibilities:\n", Take(job.responsibilities, 5));
    summary := AppendSection(summary, "Required Skills:\n", job.requiredSkills);
    summary := AppendSection(summary, "Preferred Skills:\n", job.preferredSkills);
    summary := AppendValueLine(summary, "Required Experience: ", job.requiredExperience);
    summary := AppendValueLine(summary, "Required Education: ", job.requiredEducation);
    ConcatSix(SummaryPieces(job));
  }

  /** Each of the summary's parts occurs in it, the header first. */
  lemma SummaryPiecesOccur(job: JobRecord)
    ensures StartsWith(JobSummary(job), SummaryHeader(job))
    ensures forall i :: 0 <= i < |SummaryPieces(job)| ==> Contains(JobSummary(job), SummaryPieces(job)[i])
  {
    var pieces := SummaryPieces(job);
    assert JobSummary(job) == pieces[0] + Concat(pieces[1..]);
    assert JobSummary(job)[..|pieces[0]|] == pieces[0];
    forall i | 0 <= i < |pieces| ensures Contains(JobSummary(job), pieces[i]) {
      ConcatContains(pieces, i);
    }
  }

  /** A bullet line of a section occurs in the summary that holds the section. */
  lemma SectionLine(sum: string, heading: string, items: seq<string>, i: nat)
    requires i < |items| && Contains(sum, ListSection(heading, items))
    ensures Contains(sum, "- " + items[i] + "\n")
  {
    BulletLinesMention(items, i);
    ContainsPart(heading, BulletLines(items), "\n", "- " + items[i] + "\n");
    ContainsTrans(sum, ListSection(heading, items), "- " + items[i] + "\n");
  }

  /** The summary lists the first five responsibilities, every required and
      preferred skill, and the experience and education when present. */
  lemma SummaryMentions(job: JobRecord)
    ensures forall i :: 0 <= i < |job.responsibilities| && i < 5 ==>
              Contains(JobSummary(job), "- " + job.responsibilities[i] + "\n")
    ensures forall i :: 0 <= i < |job.requiredSkills| ==>
              Contains(JobSummary(job), "- " + job.requiredSkills[i] + "\n")
    ensures forall i :: 0 <= i < |job.preferredSkills| ==>
              Contains(JobSummary(job), "- " + job.preferredSkills[i] + "\n")
    ensures job.requiredExperience != "" ==>
              Contains(JobSummary(job), "Required Experience: " + job.requiredExperience + "\n")
    ensures job.requiredEducation != "" ==>
              Contains(JobSummary(job), "Required Education: " + job.requiredEducation + "\n")
  {
    var sum := JobSummary(job);
    var pieces := SummaryPieces(job);
    SummaryPiecesOccur(job);
    assert Contains(sum, pieces[1]) && Contains(sum, pieces[2]) && Contains(sum, pieces[3]);
    assert Contains(sum, pieces[4]) && Contains(sum, pieces[5]);
    forall i | 0 <= i < |job.responsibilities| && i < 5
      ensures Contains(sum, "- " + job.responsibilities[i] + "\n")
    {
      var top := Take(job.responsibilities, 5);
      assert top[i] == job.responsibilities[i];
      SectionLine(sum, "Key Responsibilities:\n", top, i);
    }
    forall i | 0 <= i < |job.requiredSkills|
      ensures Contains(sum, "- " + job.requiredSkills[i] + "\n")
    {
      SectionLine(sum, "Required Skills:\n", job.requiredSkills, i);
    }
    forall i | 0 <= i < |job.preferredSkills|
      ensures Contains(sum, "- " + job.preferredSkills[i] + "\n")
    {
      SectionLine(sum, "Preferred Skills:\n", job.preferredSkills, i);
    }
    if job.requiredExperience != "" {
      var line := "Required Experience: " + job.requiredExperience + "\n";
      assert ValueLine("Required Experience: ", job.requiredExperience) == line + "\n";
      ContainsAt(line + "\n", line, 0);
      ContainsTrans(sum, line + "\n", line);
    }
    if job.requiredEducation != "" {
      var line := "Required Education: " + job.requiredEducation + "\n";
      assert ValueLine("Required Education: ", job.requiredEducation) == line + "\n";
      ContainsAt(line + "\n", line, 0);
      ContainsTrans(sum, line + "\n", line);
    }
  }

  /** Responsibilities past the fifth leave the summary unchanged. */
  lemma SummaryCapsResponsibilities(job: JobRecord, extra: seq<string>)
    requires |job.responsibilities| >= 5
    ensures JobSummary(job.(responsibilities := job.responsibilities + extra)) == JobSummary(job)
  {
    assert (job.responsibilities + extra)[..5] == job.responsibilities[..5];
  }

  /** The summary is the bare header exactly when the record has nothing to
      list. */
  lemma SummaryOnlyHeader(job: JobRecord)
    ensures JobSummary(job) == SummaryHeader(job) <==>
              job.responsibilities == [] && job.requiredSkills == [] && job.preferredSkills == []
              && job.requiredExperience == "" && job.requiredEducation == ""
  {
    var pieces := SummaryPieces(job);
    var rest := pieces[1..];
    assert JobSummary(job) == pieces[0] + Concat(rest);
    ConcatEmpty(rest);
    assert |rest| == 5;
    assert rest[0] == "" <==> job.responsibilities == [];
    assert rest[1] == "" <==> job.requiredSkills == [];
    assert rest[2] == "" <==> job.preferredSkills == [];
    assert rest[3] == "" <==> job.requiredExperience == "";
    assert rest[4] == "" <==> job.requiredEducation == "";
    assert JobSummary(job) == SummaryHeader(job) <==> Concat(rest) == "";
  }
}
