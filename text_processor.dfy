/** The text processor (`src/utils/text_processor.py`): contact details,
    skills, education, experience and job descriptions extracted by regular
    expressions, with the generative-text client as an optional helper whose
    replies are inputs of the model. */
module TextProcessor {
  import opened Wrappers
  import opened Text
  import opened Records

  /** A value of the job-description reply: a JSON string or a JSON array of
      strings. */
  datatype JobValue = Str(s: string) | Strs(items: seq<string>)

  /** The replies of the generative-text client, one per prompt the processor
      sends, as functions of the text each prompt is built from. The contact
      prompt quotes only the first 500 characters of the CV; the job prompt
      quotes the title and the description. */
  datatype Llm = Llm(
    contact: string -> Reply<Dict>,
    skills: string -> Reply<seq<string>>,
    education: string -> Reply<seq<Education>>,
    experience: string -> Reply<seq<Experience>>,
    job: (string, string) -> Reply<seq<(string, JobValue)>>)

  /** `TextProcessor(llm_client)`: the processor holds only its optional client. */
  datatype Processor = Processor(llm: Option<Llm>)

  // ----- `extract_contact_info` -----

  function EmailPattern(): Pattern {
    Pattern("\\b[A-Za-z0-9._%" + "+-]+@[A-Za-z0-9." + "-]+\\.[A-Z|a-z]{" + "2,}\\b", false)
  }

  function PhoneDashed(): Pattern {
    Pattern("\\b\\d{3}[-.\\s]" + "?\\d{3}[-.\\s]?\\" + "d{4}\\b", false)
  }

  function PhoneParenthesised(): Pattern {
    Pattern("\\b\\(\\d{3}\\)\\" + "s*\\d{3}[-.\\s]?" + "\\d{4}\\b", false)
  }

  function PhoneInternational(): Pattern {
    Pattern("\\b\\+\\d{1,3}\\" + "s*\\d{3}[-.\\s]?" + "\\d{3}[-.\\s]?\\" + "d{4}\\b", false)
  }

  function LinkedinPattern(): Pattern {
    Pattern("linkedin\\.com/i" + "n/[A-Za-z0-9_-]+", false)
  }  /** The phone patterns in the order they are tried. */
  function PhonePatterns(): seq<Pattern> {
    [PhoneDashed(), PhoneParenthesised(), PhoneInternational()]
  }

  function LinkedinPrefix(): string {
    "https://www."
  }

  /** `contact_info`: a dictionary whose five keys are fixed when it is
      created; the assignments only replace values. */
  datatype Contact = Contact(name: string, email: string, phone: string, linkedin: string, location: string)

  /** The dictionary, its keys in insertion order. */
  function ContactDict(c: Contact): (d: Dict)
    ensures Keys(d) == ["name", "email", "phone", "linkedin", "location"]
  {
    [("name", c.name), ("email", c.email), ("phone", c.phone), ("linkedin", c.linkedin), ("location", c.location)]
  }

  /** The first match of the first pattern in `patterns` that has one. */
  function FirstFindall(re: Regex, patterns: seq<Pattern>, text: string): Option<Groups> {
    if patterns == [] then None
    else if re.findall(patterns[0], text) != [] then Some(re.findall(patterns[0], text)[0])
    else FirstFindall(re, patterns[1..], text)
  }

  /** With no pattern matching there is no match; otherwise the match is the
      first one of some pattern none of whose predecessors matches. */
  lemma {:induction false} FirstFindallSource(re: Regex, patterns: seq<Pattern>, text: string) returns (i: nat)
    ensures FirstFindall(re, patterns, text).None? <==>
              forall k :: 0 <= k < |patterns| ==> re.findall(patterns[k], text) == []
    ensures FirstFindall(re, patterns, text).Some? ==>
              && i < |patterns| && re.findall(patterns[i], text) != []
              && FirstFindall(re, patterns, text) == Some(re.findall(patterns[i], text)[0])
              && forall k :: 0 <= k < i ==> re.findall(patterns[k], text) == []
  {
    if patterns == [] {
      i := 0;
    } else if re.findall(patterns[0], text) != [] {
      i := 0;
    } else {
      var j := FirstFindallSource(re, patterns[1..], text);
      i := j + 1;
      assert forall k :: 1 <= k < |patterns| ==> patterns[k] == patterns[1..][k - 1];
    }
  }

  /** `llm_data[key]` when the parsed reply has `key`, else "". */
  function ReplyField(reply: Reply<Dict>, key: string): string {
    if reply.Parsed? && key in Keys(reply.value) then Get(reply.value, key, "") else ""
  }

  /** The reply to the contact prompt, or `Failed` without a client. */
  function ContactReply(tp: Processor, text: string): Reply<Dict> {
    if tp.llm.Some? then tp.llm.value.contact(Take(text, 500)) else Failed
  }

  /** The contact details `extract_contact_info` returns. */
  function ContactInfo(tp: Processor, re: Regex, text: string): Contact {
    var emails := re.findall(EmailPattern(), text);
    var phone := FirstFindall(re, PhonePatterns(), text);
    var links := re.findall(LinkedinPattern(), text);
    var reply := ContactReply(tp, text);
    Contact(ReplyField(reply, "name"),
            if emails == [] then "" else Group(emails[0], 0),
            if phone.None? then "" else Group(phone.value, 0),
            if links == [] then "" else LinkedinPrefix() + Group(links[0], 0),
            ReplyField(reply, "location"))
  }

  /** `extract_contact_info`: the defaults, then one assignment per finding;
      the phone loop stops at the first pattern with a match. */
  method ExtractContactInfo(tp: Processor, re: Regex, text: string) returns (info: Contact)
    ensures info == ContactInfo(tp, re, text)
  {
    info := Contact("", "", "", "", "");
    var emails := re.findall(EmailPattern(), text);
    if emails != [] {
      info := info.(email := Group(emails[0], 0));
    }
    var patterns := PhonePatterns();
    ghost var first := FirstFindall(re, patterns, text);
    var i := 0;
    while i < |patterns|
      invariant 0 <= i <= |patterns|
      invariant FirstFindall(re, patterns[i..], text) == first
      invariant info.phone == "" && info.name == "" && info.linkedin == "" && info.location == ""
      invariant info.email == ContactInfo(tp, re, text).email
    {
      var matches := re.findall(patterns[i], text);
      if matches != [] {
        info := info.(phone := Group(matches[0], 0));
        break;
      }
      assert patterns[i..][1..] == patterns[i + 1..];
      i := i + 1;
    }
    var links := re.findall(LinkedinPattern(), text);
    if links != [] {
      info := info.(linkedin := LinkedinPrefix() + Group(links[0], 0));
    }
    if tp.llm.Some? {
      var reply := tp.llm.value.contact(Take(text, 500));
      if reply.Parsed? {
        if "name" in Keys(reply.value) {
          info := info.(name := Get(reply.value, "name", ""));
        }
        if "location" in Keys(reply.value) {
          info := info.(location := Get(reply.value, "location", ""));
        }
      }
    }
  }

  /** The name and the location come only from the client, so without one
      they stay ""; the e-mail, phone and profile do not depend on the client. */
  lemma ContactWithoutClient(tp: Processor, other: Processor, re: Regex, text: string)
    ensures tp.llm.None? ==> ContactInfo(tp, re, text).name == "" && ContactInfo(tp, re, text).location == ""
    ensures var c := ContactInfo(tp, re, text);
            var d := ContactInfo(other, re, text);
            c.email == d.email && c.phone == d.phone && c.linkedin == d.linkedin
  {
  }

  /** The phone is the first match of the first phone pattern that has a
      match, or "" when none has. */
  lemma PhonePriority(tp: Processor, re: Regex, text: string)
    ensures var phone := ContactInfo(tp, re, text).phone;
            && ((forall k :: 0 <= k < 3 ==> re.findall(PhonePatterns()[k], text) == []) ==> phone == "")
            && ((exists k :: 0 <= k < 3 && re.findall(PhonePatterns()[k], text) != []) ==>
                  exists k :: 0 <= k < 3 && re.findall(PhonePatterns()[k], text) != []
                               && phone == Group(re.findall(PhonePatterns()[k], text)[0], 0)
                               && forall j :: 0 <= j < k ==> re.findall(PhonePatterns()[j], text) == [])
  {
    var k := FirstFindallSource(re, PhonePatterns(), text);
  }

  /** A profile found is stored behind the "https://www." prefix; none found
      leaves "". */
  lemma LinkedinPrefixed(tp: Processor, re: Regex, text: string)
    ensures var links := re.findall(LinkedinPattern(), text);
            var linkedin := ContactInfo(tp, re, text).linkedin;
            && (links == [] ==> linkedin == "")
            && (links != [] ==> StartsWith(linkedin, LinkedinPrefix())
                                && linkedin[|LinkedinPrefix()|..] == Group(links[0], 0))
  {
  }

  // ----- `extract_skills` -----

  function TechnicalSkills(): Pattern {
    Pattern("(?i)(?:technical" + "\\s+)?skills[\\s" + ":]+(.+?)(?:\\n\\" + "n|\\n[A-Z])", true)
  }

  function CoreCompetencies(): Pattern {
    Pattern("(?i)(?:core\\s+)" + "?competencies[\\" + "s:]+(.+?)(?:\\n\\" + "n|\\n[A-Z])", true)
  }

  function Technologies(): Pattern {
    Pattern("(?i)technologies" + "[\\s:]+(.+?)(?:\\" + "n\\n|\\n[A-Z])", true)
  }  /** The skills-section patterns in the order they are tried (all with
      `re.DOTALL`). */
  function SkillSectionPatterns(): seq<Pattern> {
    [TechnicalSkills(), CoreCompetencies(), Technologies()]
  }

  /** The delimiters in the order they are tried. */
  function Delimiters(): seq<char> {
    [',', '\U{2022}', '\U{00B7}', '|', '/', '\n']
  }

  /** `[s.strip() for s in parts if s.strip()]`. */
  function StrippedNonEmpty(parts: seq<string>): seq<string> {
    if parts == [] then []
    else
      var t := Strip(parts[|parts| - 1]);
      StrippedNonEmpty(parts[..|parts| - 1]) + if t != "" then [t] else []
  }

  /** A kept part is a non-empty stripped part. */
  lemma {:induction false} StrippedSound(parts: seq<string>, x: string) returns (k: nat)
    requires x in StrippedNonEmpty(parts)
    ensures k < |parts| && x == Strip(parts[k]) && x != ""
  {
    var init := parts[..|parts| - 1];
    if x in StrippedNonEmpty(init) {
      k := StrippedSound(init, x);
      assert init[k] == parts[k];
    } else {
      k := |parts| - 1;
    }
  }

  /** Every part that is not blank is kept, stripped. */
  lemma {:induction false} StrippedComplete(parts: seq<string>, k: nat)
    requires k < |parts| && Strip(parts[k]) != ""
    ensures Strip(parts[k]) in StrippedNonEmpty(parts)
  {
    var init := parts[..|parts| - 1];
    if k < |init| {
      assert init[k] == parts[k];
      StrippedComplete(init, k);
      StrippedKeepsInit(parts, Strip(parts[k]));
    } else {
      StrippedKeepsLast(parts);
    }
  }

  lemma StrippedKeepsInit(parts: seq<string>, x: string)
    requires parts != [] && x in StrippedNonEmpty(parts[..|parts| - 1])
    ensures x in StrippedNonEmpty(parts)
  {
    var t := Strip(parts[|parts| - 1]);
    InAppend(StrippedNonEmpty(parts[..|parts| - 1]), if t != "" then [t] else [], x);
  }

  lemma StrippedKeepsLast(parts: seq<string>)
    requires parts != [] && Strip(parts[|parts| - 1]) != ""
    ensures Strip(parts[|parts| - 1]) in StrippedNonEmpty(parts)
  {
    var t := Strip(parts[|parts| - 1]);
    InAppendRight(StrippedNonEmpty(parts[..|parts| - 1]), [t], t);
  }

  /** The index of the first delimiter of `ds` that occurs in `text`. */
  function FirstDelimiter(text: string, ds: seq<char>): (r: Option<nat>)
    ensures r.None? <==> forall k :: 0 <= k < |ds| ==> ds[k] !in text
    ensures r.Some? ==> r.value < |ds| && ds[r.value] in text && forall k :: 0 <= k < r.value ==> ds[k] !in text
  {
    if ds == [] then None
    else if ds[0] in text then Some(0)
    else match FirstDelimiter(text, ds[1..]) case None => None case Some(k) => Some(k + 1)
  }

  /** The first delimiter found is the one at `k` when it is in the text
      and none before it is. */
  lemma {:induction false} FirstDelimiterAt(text: string, ds: seq<char>, k: nat)
    requires k < |ds| && ds[k] in text
    requires forall j :: 0 <= j < k ==> ds[j] !in text
    ensures FirstDelimiter(text, ds) == Some(k)
  {
    if k > 0 {
      FirstDelimiterAt(text, ds[1..], k - 1);
    }
  }

  /** What one skills section contributes: its parts split on the first
      delimiter it contains, stripped, with empty ones dropped; nothing when
      it contains none of the delimiters. */
  function SectionSkills(section: string): (r: seq<string>) {
    match FirstDelimiter(section, Delimiters())
    case None => []
    case Some(k) => StrippedNonEmpty(SplitOn(section, Delimiters()[k]))
  }

  /** What each section pattern contributes: nothing when it does not
      match. */
  function Contributions(re: Regex, text: string, patterns: seq<Pattern>): (cs: seq<seq<string>>)
    ensures |cs| == |patterns|
  {
    seq(|patterns|, i requires 0 <= i < |patterns| =>
          match re.search(patterns[i], text) case None => [] case Some(g) => SectionSkills(Group(g, 1)))
  }

  /** The first non-empty list. */
  function FirstNonEmpty<T>(cs: seq<seq<T>>): seq<T> {
    if cs == [] then [] else if cs[0] != [] then cs[0] else FirstNonEmpty(cs[1..])
  }

  /** The first non-empty list is one of the lists, and all before it are
      empty. */
  lemma {:induction false} FirstNonEmptySource<T>(cs: seq<seq<T>>) returns (i: nat)
    requires FirstNonEmpty(cs) != []
    ensures i < |cs| && FirstNonEmpty(cs) == cs[i] && forall j :: 0 <= j < i ==> cs[j] == []
  {
    if cs[0] != [] {
      i := 0;
    } else {
      var k := FirstNonEmptySource(cs[1..]);
      i := k + 1;
      assert forall j :: 1 <= j <= k ==> cs[j] == cs[1..][j - 1];
    }
  }

  /** There is no first non-empty list exactly when all lists are empty. */
  lemma {:induction false} FirstNonEmptyEmpty<T>(cs: seq<seq<T>>)
    ensures FirstNonEmpty(cs) == [] <==> forall j :: 0 <= j < |cs| ==> cs[j] == []
  {
    if cs != [] {
      FirstNonEmptyEmpty(cs[1..]);
      assert forall j :: 1 <= j < |cs| ==> cs[j] == cs[1..][j - 1];
    }
  }

  /** The skills of the first section pattern that matches and contributes
      something. */
  function RuleSkills(re: Regex, text: string, patterns: seq<Pattern>): seq<string> {
    FirstNonEmpty(Contributions(re, text, patterns))
  }

  /** The list before deduplication: the rule-based skills, or, when there are
      none and a client is present, the list the client returns. */
  function SkillCandidates(tp: Processor, re: Regex, text: string): seq<string> {
    var found := RuleSkills(re, text, SkillSectionPatterns());
    if found == [] && tp.llm.Some? then
      match tp.llm.value.skills(text) case Parsed(v) => v case Failed => []
    else found
  }

  /** `list(set([s for s in skills if s]))`, keeping first occurrences. */
  function Dedupe(xs: seq<string>): seq<string> {
    if xs == [] then []
    else
      var init := Dedupe(xs[..|xs| - 1]);
      var x := xs[|xs| - 1];
      init + if x != "" && x !in init then [x] else []
  }

  /** Deduplication keeps exactly the non-empty entries, each once. */
  lemma {:induction false} DedupeFacts(xs: seq<string>)
    ensures forall x :: x in Dedupe(xs) <==> x in xs && x != ""
    ensures forall i, j :: 0 <= i < j < |Dedupe(xs)| ==> Dedupe(xs)[i] != Dedupe(xs)[j]
  {
    if xs != [] {
      var init := xs[..|xs| - 1];
      DedupeFacts(init);
      assert xs == init + [xs[|xs| - 1]];
    }
  }

  /** The delimiter loop of one section. */
  method SplitSection(section: string) returns (parts: seq<string>)
    ensures parts == SectionSkills(section)
  {
    parts := [];
    var ds := Delimiters();
    var k := 0;
    while k < |ds|
      invariant 0 <= k <= |ds|
      invariant forall j :: 0 <= j < k ==> ds[j] !in section
      invariant parts == []
    {
      if ds[k] in section {
        FirstDelimiterAt(section, ds, k);
        parts := StrippedNonEmpty(SplitOn(section, ds[k]));
        return;
      }
      k := k + 1;
    }
  }

  /** `extract_skills`: the section patterns in order until one contributes,
      the fallback to the client only when nothing was found, then the
      deduplication. */
  method ExtractSkills(tp: Processor, re: Regex, text: string) returns (skills: seq<string>)
    ensures skills == Dedupe(SkillCandidates(tp, re, text))
  {
    skills := [];
    var patterns := SkillSectionPatterns();
    var i := 0;
    while i < |patterns|
      invariant 0 <= i <= |patterns|
      invariant skills == []
      invariant FirstNonEmpty(Contributions(re, text, patterns)[i..]) == RuleSkills(re, text, patterns)
    {
      var m := re.search(patterns[i], text);
      if m.Some? {
        var parts := SplitSection(Group(m.value, 1));
        assert skills + parts == parts;
        skills := skills + parts;
        if skills != [] {
          assert skills == Contributions(re, text, patterns)[i];
          break;
        }
      }
      assert Contributions(re, text, patterns)[i..][1..] == Contributions(re, text, patterns)[i + 1..];
      i := i + 1;
    }
    assert skills == RuleSkills(re, text, patterns) by {
      if skills == [] {
        assert Contributions(re, text, patterns)[i..] == [];
      }
    }
    if skills == [] && tp.llm.Some? {
      var reply := tp.llm.value.skills(text);
      if reply.Parsed? {
        skills := reply.value;
      }
    }
    skills := Dedupe(skills);
  }

  /** A section containing none of the delimiters contributes nothing. */
  lemma SectionWithoutDelimiter(section: string)
    requires forall k :: 0 <= k < |Delimiters()| ==> Delimiters()[k] !in section
    ensures SectionSkills(section) == []
  {
  }

  /** A section is split on the first delimiter of the list that it contains,
      and on no other. */
  lemma SectionSplitsOnFirstDelimiter(section: string, k: nat)
    requires k < |Delimiters()| && Delimiters()[k] in section
    requires forall j :: 0 <= j < k ==> Delimiters()[j] !in section
    ensures SectionSkills(section) == StrippedNonEmpty(SplitOn(section, Delimiters()[k]))
  {
    var r := FirstDelimiter(section, Delimiters());
    assert r.Some?;
    assert r.value == k;
  }

  /** The rule-based skills come from one section pattern: it matches and
      contributes them, and every earlier pattern either does not match or
      contributes nothing; there are none exactly when no pattern does. */
  lemma RuleSkillsSource(re: Regex, text: string, patterns: seq<Pattern>)
    ensures RuleSkills(re, text, patterns) != [] ==>
              exists i :: 0 <= i < |patterns| && re.search(patterns[i], text).Some?
                && RuleSkills(re, text, patterns) == SectionSkills(Group(re.search(patterns[i], text).value, 1))
                && forall j :: 0 <= j < i ==> Contributions(re, text, patterns)[j] == []
    ensures RuleSkills(re, text, patterns) == [] <==>
              forall j :: 0 <= j < |patterns| ==> Contributions(re, text, patterns)[j] == []
  {
    var cs := Contributions(re, text, patterns);
    FirstNonEmptyEmpty(cs);
    if FirstNonEmpty(cs) != [] {
      var i := FirstNonEmptySource(cs);
      assert re.search(patterns[i], text).Some?;
    }
  }

  /** The client is consulted only when the rule-based pass found nothing:
      otherwise the result does not depend on it. */
  lemma SkillsFallbackOnlyWhenEmpty(tp: Processor, other: Processor, re: Regex, text: string)
    ensures RuleSkills(re, text, SkillSectionPatterns()) != [] ==>
              SkillCandidates(tp, re, text) == SkillCandidates(other, re, text)
              == RuleSkills(re, text, SkillSectionPatterns())
    ensures tp.llm.None? ==> SkillCandidates(tp, re, text) == RuleSkills(re, text, SkillSectionPatterns())
  {
  }

  /** The returned skills hold no empty string and no duplicate, and are
      exactly the non-empty candidates. */
  lemma ExtractedSkillsFacts(tp: Processor, re: Regex, text: string)
    ensures var skills := Dedupe(SkillCandidates(tp, re, text));
            && "" !in skills
            && (forall x :: x in skills <==> x in SkillCandidates(tp, re, text) && x != "")
            && forall i, j :: 0 <= i < j < |skills| ==> skills[i] != skills[j]
  {
    DedupeFacts(SkillCandidates(tp, re, text));
  }

  // ----- `parse_job_description` -----

  function JobSkillsSection(): Pattern {
    Pattern("(?i)(?:technical" + " requirements|sk" + "ills|qualificati" + "ons)[\\s:]+(.+?)"
            + "(?:\\n\\n|\\n[A-" + "Z]|$)", true)
  }

  function JobDutiesSection(): Pattern {
    Pattern("(?i)(?:responsib" + "ilities|duties|r" + "ole)[\\s:]+(.+?)" + "(?:\\n\\n|\\n[A-"
            + "Z]|$)", true)
  }

  function BulletPattern(): Pattern {
    Pattern("(?:\U{2022}|\\*|" + "\\-|\\d+\\.)\\s*" + "([^\U{2022}\\*\\" + "-\\d\\.]+)", false)
  }

  function JobEducationPattern(): Pattern {
    Pattern("(?i)(?:education" + "|degree)(?:al)?\\" + "s+requirements?[" + "\\s:]+([^\U{2022}"
            + "\\*\\-\\d\\.]+)", false)
  }

  function JobExperiencePattern(): Pattern {
    Pattern("(?i)(?:experienc" + "e)(?:al)?\\s+req" + "uirements?[\\s:]" + "+([^\U{2022}\\*\\"
            + "-\\d\\.]+)", false)
  }  /** `job_info` before any parsing: the title given, no `description` key,
      empty lists and strings. */
  function JobDefaults(title: string): JobRecord {
    JobRecord(Some(title), None, [], [], "", "", [])
  }

  /** The keys of `job_info`. */
  predicate KnownJobKey(key: string) {
    key in ["title", "required_skills", "preferred_skills", "required_experience", "required_education",
            "responsibilities"]
  }

  /** `job_info[key] = value` for one key of the reply. */
  function SetJobField(job: JobRecord, key: string, v: JobValue): JobRecord {
    match v
    case Str(x) =>
      if key == "title" then job.(title := Some(x))
      else if key == "required_experience" then job.(requiredExperience := x)
      else if key == "required_education" then job.(requiredEducation := x)
      else job
    case Strs(xs) =>
      if key == "required_skills" then job.(requiredSkills := xs)
      else if key == "preferred_skills" then job.(preferredSkills := xs)
      else if key == "responsibilities" then job.(responsibilities := xs)
      else job
  }

  /** The merge loop over the reply's keys, in order. */
  function Merge(job: JobRecord, reply: seq<(string, JobValue)>): JobRecord {
    if reply == [] then job
    else
      var last := reply[|reply| - 1];
      SetJobField(Merge(job, reply[..|reply| - 1]), last.0, last.1)
  }

  /** The reply's entries whose key `job_info` has. */
  function KnownEntries(reply: seq<(string, JobValue)>): seq<(string, JobValue)> {
    if reply == [] then []
    else
      var last := reply[|reply| - 1];
      KnownEntries(reply[..|reply| - 1]) + if KnownJobKey(last.0) then [last] else []
  }

  /** A key `job_info` does not have leaves the record as it is. */
  lemma UnknownKeyIgnored(job: JobRecord, key: string, v: JobValue)
    requires !KnownJobKey(key)
    ensures SetJobField(job, key, v) == job
  {
  }

  /** Only the keys already in `job_info` are taken from the reply: merging
      the whole reply is merging its known entries. */
  lemma {:induction false} MergeKeyFilter(job: JobRecord, reply: seq<(string, JobValue)>)
    ensures Merge(job, reply) == Merge(job, KnownEntries(reply))
  {
    if reply != [] {
      var init := reply[..|reply| - 1];
      var last := reply[|reply| - 1];
      MergeKeyFilter(job, init);
      if KnownJobKey(last.0) {
        var k := KnownEntries(init) + [last];
        assert k[..|k| - 1] == KnownEntries(init);
      } else {
        UnknownKeyIgnored(Merge(job, init), last.0, last.1);
        assert KnownEntries(init) + [] == KnownEntries(init);
        assert KnownEntries(reply) == KnownEntries(init);
      }
    }
  }

  /** No entry of the reply can set a description: `job_info` has no such key. */
  lemma {:induction false} MergeKeepsDescription(job: JobRecord, reply: seq<(string, JobValue)>)
    ensures Merge(job, reply).description == job.description
  {
    if reply != [] {
      MergeKeepsDescription(job, reply[..|reply| - 1]);
    }
  }

  /** Group 1 of every bullet match. */
  function BulletItems(found: seq<Groups>): (items: seq<string>)
    ensures |items| == |found|
  {
    seq(|found|, i requires 0 <= i < |found| => Group(found[i], 1))
  }

  /** Every kept part is non-empty and stripped at both ends. */
  lemma StrippedClean(parts: seq<string>)
    ensures forall x :: x in StrippedNonEmpty(parts) ==> x != "" && !IsSpace(x[0]) && !IsSpace(x[|x| - 1])
  {
    forall x | x in StrippedNonEmpty(parts) ensures x != "" && !IsSpace(x[0]) && !IsSpace(x[|x| - 1]) {
      var k := StrippedSound(parts, x);
    }
  }

  /** `[r.strip() for r in items if r.strip()]` of the bullet items found in
      group 1 of a section match; no section leaves the list empty. */
  function SectionItems(re: Regex, section: Option<Groups>): seq<string> {
    if section.None? then []
    else
      var found := re.findall(BulletPattern(), Group(section.value, 1));
      StrippedNonEmpty(BulletItems(found))
  }

  /** `match.group(1).strip()`, or "" without a match. */
  function StrippedGroup(m: Option<Groups>): string {
    if m.None? then "" else Strip(Group(m.value, 1))
  }

  /** The regular-expression fallback used when there is no client. */
  function FallbackJob(re: Regex, jobText: string, title: string): JobRecord {
    JobRecord(Some(title), None,
              SectionItems(re, re.search(JobSkillsSection(), jobText)), [],
              StrippedGroup(re.search(JobExperiencePattern(), jobText)),
              StrippedGroup(re.search(JobEducationPattern(), jobText)),
              SectionItems(re, re.search(JobDutiesSection(), jobText)))
  }

  /** The record `parse_job_description` returns. */
  function ParsedJob(tp: Processor, re: Regex, jobText: string, title: string): JobRecord {
    if tp.llm.Some? then
      match tp.llm.value.job(title, jobText)
      case Failed => JobDefaults(title)
      case Parsed(reply) => Merge(JobDefaults(title), reply)
    else FallbackJob(re, jobText, title)
  }

  /** `parse_job_description`: the defaults, then either the merge of the
      client's reply or the regular-expression fallback. */
  method ParseJobDescription(tp: Processor, re: Regex, jobText: string, title: string := "") returns (job: JobRecord)
    ensures job == ParsedJob(tp, re, jobText, title)
  {
    job := JobDefaults(title);
    if tp.llm.Some? {
      var answer := tp.llm.value.job(title, jobText);
      if answer.Parsed? {
        var reply := answer.value;
        var i := 0;
        while i < |reply|
          invariant 0 <= i <= |reply|
          invariant job == Merge(JobDefaults(title), reply[..i])
        {
          assert reply[..i + 1][..i] == reply[..i];
          var key := reply[i].0;
          if KnownJobKey(key) {
            job := SetJobField(job, key, reply[i].1);
          }
          i := i + 1;
        }
        assert reply[..i] == reply;
      }
    } else {
      var skills := re.search(JobSkillsSection(), jobText);
      if skills.Some? {
        var found := re.findall(BulletPattern(), Group(skills.value, 1));
        if found != [] {
          job := job.(requiredSkills := SectionItems(re, skills));
        }
      }
      var duties := re.search(JobDutiesSection(), jobText);
      if duties.Some? {
        var found := re.findall(BulletPattern(), Group(duties.value, 1));
        if found != [] {
          job := job.(responsibilities := SectionItems(re, duties));
        }
      }
      var edu := re.search(JobEducationPattern(), jobText);
      if edu.Some? {
        job := job.(requiredEducation := Strip(Group(edu.value, 1)));
      }
      var exp := re.search(JobExperiencePattern(), jobText);
      if exp.Some? {
        job := job.(requiredExperience := Strip(Group(exp.value, 1)));
      }
    }
  }

  /** A failed call or unparsable reply leaves the defaults, with no fallback
      to the regular expressions; with a client the record never has a
      description; without one the fallback lists hold only non-empty
      stripped items and the preferred skills stay empty. */
  lemma ParsedJobFacts(tp: Processor, re: Regex, jobText: string, title: string)
    ensures tp.llm.Some? && tp.llm.value.job(title, jobText).Failed? ==>
              ParsedJob(tp, re, jobText, title) == JobDefaults(title)
    ensures ParsedJob(tp, re, jobText, title).description.None?
    ensures tp.llm.None? ==>
              var job := ParsedJob(tp, re, jobText, title);
              && job.title == Some(title) && job.preferredSkills == []
              && (forall x :: x in job.requiredSkills ==> x != "" && !IsSpace(x[0]) && !IsSpace(x[|x| - 1]))
              && (forall x :: x in job.responsibilities ==> x != "" && !IsSpace(x[0]) && !IsSpace(x[|x| - 1]))
  {
    if tp.llm.Some? {
      match tp.llm.value.job(title, jobText)
      case Failed =>
      case Parsed(reply) => MergeKeepsDescription(JobDefaults(title), reply);
    } else {
      var skills := re.search(JobSkillsSection(), jobText);
      var duties := re.search(JobDutiesSection(), jobText);
      if skills.Some? {
        StrippedClean(BulletItems(re.findall(BulletPattern(), Group(skills.value, 1))));
      }
      if duties.Some? {
        StrippedClean(BulletItems(re.findall(BulletPattern(), Group(duties.value, 1))));
      }
    }
  }

  // ----- `extract_education`, `extract_experience`, `analyze_cv` -----

  function EducationSection(): Pattern {
    Pattern("(?i)education(?:" + "al)?(?:\\s+backg" + "round)?[\\s:]+(." + "+?)(?:\\n\\n\\w|"
            + "\\n[A-Z]|$)", true)
  }

  function ExperienceSection(): Pattern {
    Pattern("(?i)(?:work\\s+)" + "?experience[\\s:" + "]+(.+?)(?:\\n\\n" + "\\w|\\n[A-Z]|$)", true)
  }  /** `section if section else text` for the section found by `p`. */
  function PromptSection(re: Regex, p: Pattern, text: string): string {
    var m := re.search(p, text);
    if m.Some? && Group(m.value, 1) != "" then Group(m.value, 1) else text
  }

  /** `extract_education`: only the client reads education; without one, or
      when its reply fails, the list is empty. */
  function EducationEntries(tp: Processor, re: Regex, text: string): seq<Education> {
    if tp.llm.None? then []
    else match tp.llm.value.education(PromptSection(re, EducationSection(), text))
      case Parsed(v) => v
      case Failed => []
  }

  /** `extract_experience`, the same shape as `extract_education`. */
  function ExperienceEntries(tp: Processor, re: Regex, text: string): seq<Experience> {
    if tp.llm.None? then []
    else match tp.llm.value.experience(PromptSection(re, ExperienceSection(), text))
      case Parsed(v) => v
      case Failed => []
  }

  /** The dictionary `analyze_cv` returns (it has no `cv_filename` key). */
  datatype CvAnalysis = CvAnalysis(contactInfo: Contact, skills: seq<string>, education: seq<Education>,
                                   experience: seq<Experience>, fullText: string)

  /** `analyze_cv`. */
  method AnalyzeCv(tp: Processor, re: Regex, cvText: string) returns (cv: CvAnalysis)
    ensures cv.contactInfo == ContactInfo(tp, re, cvText)
    ensures cv.skills == Dedupe(SkillCandidates(tp, re, cvText))
    ensures cv.education == EducationEntries(tp, re, cvText)
    ensures cv.experience == ExperienceEntries(tp, re, cvText)
    ensures cv.fullText == cvText
  {
    var contact := ExtractContactInfo(tp, re, cvText);
    var skills := ExtractSkills(tp, re, cvText);
    cv := CvAnalysis(contact, skills, EducationEntries(tp, re, cvText), ExperienceEntries(tp, re, cvText), cvText);
  }

  /** Without a client the analysis has no education, no experience, no
      name and no location. */
  lemma AnalysisWithoutClient(tp: Processor, re: Regex, text: string)
    requires tp.llm.None?
    ensures EducationEntries(tp, re, text) == [] && ExperienceEntries(tp, re, text) == []
    ensures ContactInfo(tp, re, text).name == "" && ContactInfo(tp, re, text).location == ""
  {
  }
}
