/** The CV-processing agent (`src/agents/cv_processing_agent.py`): turning a
    CV file into a candidate record, with the failure record when no text
    could be extracted and the bare record when there is no text processor,
    and the plain-text summary of a record. */
module CvProcessingAgent {
  import opened Wrappers
  import opened Text
  import opened Records
  import opened TextProcessor

  // ----- `Path(cv_path).name` -----

  /** The last component that is neither empty nor ".", or "" when there is
      none. */
  function LastComponent(parts: seq<string>): (r: string)
    ensures r == "" || r in parts
  {
    if parts == [] then ""
    else
      var last := parts[|parts| - 1];
      if last == "" || last == "." then LastComponent(parts[..|parts| - 1]) else last
  }

  /** The final component of a path, as `pathlib` names it. */
  function BaseName(path: string): string {
    LastComponent(SplitOn(path, '/'))
  }

  /** A file name has no separator in it. */
  lemma BaseNameNoSeparator(path: string)
    ensures '/' !in BaseName(path)
  {
    var parts := SplitOn(path, '/');
    if BaseName(path) != "" {
      var k :| 0 <= k < |parts| && parts[k] == BaseName(path);
    }
  }

  /** The last part of a split is what follows the last separator. */
  lemma {:induction false} SplitOnLast(dir: string, d: char, name: string)
    requires d !in name
    ensures var parts := SplitOn(dir + [d] + name, d);
            parts[|parts| - 1] == name
    decreases |dir|
  {
    if d in dir {
      var j := IndexOf(dir, d);
      SplitAtFirst(dir, d, name);
      SplitOnLast(dir[j + 1..], d, name);
      LastOfCons(dir[..j], SplitOn(dir[j + 1..] + [d] + name, d));
    } else {
      SplitAtOnly(dir, d, name);
      LastOfCons(dir, SplitOn(name, d));
    }
  }

  /** Splitting stops first at the first separator inside the directory part. */
  lemma SplitAtFirst(dir: string, d: char, name: string)
    requires d in dir
    ensures var j := IndexOf(dir, d);
            SplitOn(dir + [d] + name, d) == [dir[..j]] + SplitOn(dir[j + 1..] + [d] + name, d)
  {
    var s := dir + [d] + name;
    var j := IndexOf(dir, d);
    assert s[j] == d;
    assert s[..j] == dir[..j];
    assert s[j + 1..] == dir[j + 1..] + [d] + name;
    SplitOnStep(s, d, j);
  }

  /** Without a separator in the directory part, the split stops at the
      separator before the name. */
  lemma SplitAtOnly(dir: string, d: char, name: string)
    requires d !in dir
    ensures SplitOn(dir + [d] + name, d) == [dir] + SplitOn(name, d)
  {
    var s := dir + [d] + name;
    assert s[|dir|] == d;
    assert s[..|dir|] == dir;
    assert s[|dir| + 1..] == name;
    SplitOnStep(s, d, |dir|);
  }

  lemma LastOfCons(x: string, rest: seq<string>)
    requires |rest| >= 1
    ensures ([x] + rest)[|rest|] == rest[|rest| - 1]
  {
  }

  /** The name of a file in a directory is the file's own name. */
  lemma BaseNameOfPath(dir: string, name: string)
    requires '/' !in name && name != "" && name != "."
    ensures BaseName(dir + "/" + name) == name
  {
    SplitOnLast(dir, '/', name);
  }

  // ----- `process_cv` -----

  /** The record `process_cv` returns: the failure record, which holds only
      the file name and its message, or a candidate record. */
  datatype CvResult =
    | CvFailed(fileName: string, error: string)
    | CvProcessed(record: CandidateRecord)
  {
    function FileName(): string {
      if CvFailed? then fileName else record.cvFilename
    }
  }

  function ExtractionError(): string {
    "Failed to extract text"
  }

  /** The text the PDF parser extracts, or "" when there is no parser. */
  function PdfText(parser: Option<string -> string>, path: string): string {
    if parser.None? then "" else parser.value(path)
  }

  /** What `process_cv` returns. */
  function CvOutcome(parser: Option<string -> string>, tp: Option<Processor>, re: Regex, path: string): CvResult {
    var name := BaseName(path);
    var text := PdfText(parser, path);
    if text == "" then CvFailed(name, ExtractionError())
    else if tp.None? then CvProcessed(CandidateRecord(name, [], [], [], [], text))
    else
      var p := tp.value;
      CvProcessed(CandidateRecord(name, ContactDict(ContactInfo(p, re, text)),
                                  Dedupe(SkillCandidates(p, re, text)),
                                  EducationEntries(p, re, text), ExperienceEntries(p, re, text), text))
  }

  /** `process_cv`: extract the text, analyse it with the text processor when
      there is one, and stamp the record with the file name. */
  method ProcessCv(parser: Option<string -> string>, tp: Option<Processor>, re: Regex, path: string)
    returns (r: CvResult)
    ensures r == CvOutcome(parser, tp, re, path)
  {
    var name := BaseName(path);
    var text := "";
    if parser.Some? {
      text := parser.value(path);
    }
    if text == "" {
      return CvFailed(name, ExtractionError());
    }
    var record: CandidateRecord;
    if tp.Some? {
      var cv := AnalyzeCv(tp.value, re, text);
      record := CandidateRecord("", ContactDict(cv.contactInfo), cv.skills, cv.education, cv.experience, cv.fullText);
    } else {
      record := CandidateRecord(name, [], [], [], [], text);
    }
    record := record.(cvFilename := name);
    r := CvProcessed(record);
  }

  /** The record fails exactly when no text was extracted; it always carries
      the file name; a processed record keeps the whole text, and without a
      text processor it has nothing else. */
  lemma CvOutcomeFacts(parser: Option<string -> string>, tp: Option<Processor>, re: Regex, path: string)
    ensures var r := CvOutcome(parser, tp, re, path);
            && (r.CvFailed? <==> PdfText(parser, path) == "")
            && (parser.None? ==> r.CvFailed?)
            && r.FileName() == BaseName(path) && '/' !in r.FileName()
            && (r.CvFailed? ==> r.error == ExtractionError())
            && (r.CvProcessed? ==> r.record.fullText == PdfText(parser, path))
            && (r.CvProcessed? && tp.None? ==>
                  r.record.contactInfo == [] && r.record.skills == []
                  && r.record.education == [] && r.record.experience == [])
            && (r.CvProcessed? && tp.Some? ==>
                  Keys(r.record.contactInfo) == ["name", "email", "phone", "linkedin", "location"]
                  && "" !in r.record.skills)
  {
    BaseNameNoSeparator(path);
    if tp.Some? && PdfText(parser, path) != "" {
      ExtractedSkillsFacts(tp.value, re, PdfText(parser, path));
    }
  }

  // ----- `summarize_cv` -----

  /** The line for one contact entry: only entries with a value, and never
      the name, which heads the summary. */
  function ContactLine(entry: (string, string)): string {
    if entry.1 != "" && entry.0 != "name" then "- " + Title(entry.0) + ": " + entry.1 + "\n" else ""
  }

  function ContactLines(contact: Dict): (lines: seq<string>)
    ensures |lines| == |contact|
  {
    seq(|contact|, i requires 0 <= i < |contact| => ContactLine(contact[i]))
  }

  /** The contact section, present even when it lists nothing. */
  function ContactSection(contact: Dict): string {
    "Contact Information:\n" + Concat(ContactLines(contact)) + "\n"
  }

  /** The line that counts the skills past the tenth. */
  function MoreSkillsLine(count: nat): string {
    if count > 10 then "- ...and " + NatToString(count - 10) + " more\n" else ""
  }

  function SkillsSection(skills: seq<string>): string {
    if skills == [] then "" else "Skills:\n" + BulletLines(Take(skills, 10)) + MoreSkillsLine(|skills|) + "\n"
  }

  /** One education entry: the degree, then the institution and the year
      when present. */
  function EducationText(e: Education): string {
    e.degree + (if e.institution != "" then " from " + e.institution else "")
    + (if e.year != "" then " (" + e.year + ")" else "")
  }

  function EducationTexts(education: seq<Education>): (r: seq<string>)
    ensures |r| == |education|
  {
    seq(|education|, i requires 0 <= i < |education| => EducationText(education[i]))
  }

  function EducationSection(education: seq<Education>): string {
    if education == [] then "" else "Education:\n" + BulletLines(EducationTexts(education)) + "\n"
  }

  /** One experience entry's headline: the title, then the company and the
      duration when present. */
  function ExperienceHeadline(x: Experience): string {
    x.title + (if x.company != "" then " at " + x.company else "")
    + (if x.duration != "" then " (" + x.duration + ")" else "")
  }

  /** The indented description line: the first 100 characters, with an
      ellipsis when more were cut. */
  function DescriptionLine(description: string): string {
    if description == "" then ""
    else "  " + Take(description, 100) + (if |description| > 100 then "..." else "") + "\n"
  }

  function ExperienceEntry(x: Experience): string {
    "- " + ExperienceHeadline(x) + "\n" + DescriptionLine(x.description)
  }

  function ExperienceBlocks(experience: seq<Experience>): (r: seq<string>)
    ensures |r| == |experience|
  {
    seq(|experience|, i requires 0 <= i < |experience| => ExperienceEntry(experience[i]))
  }

  function ExperienceSection(experience: seq<Experience>): string {
    if experience == [] then "" else "Experience:\n" + Concat(ExperienceBlocks(experience)) + "\n"
  }

  function CvHeader(cv: CandidateRecord): string {
    "CV Summary: " + Get(cv.contactInfo, "name", "Unknown Candidate") + "\n\n"
  }

  /** The parts of the summary, in order. */
  function CvPieces(cv: CandidateRecord): seq<string> {
    [CvHeader(cv), ContactSection(cv.contactInfo), SkillsSection(cv.skills),
     EducationSection(cv.education), ExperienceSection(cv.experience)]
  }

  /** The text `summarize_cv` returns. */
  function CvSummary(cv: CandidateRecord): string {
    Concat(CvPieces(cv))
  }

  /** The contact section, one entry at a time. */
  method AppendContact(text: string, contact: Dict) returns (r: string)
    ensures r == text + ContactSection(contact)
  {
    r := text + "Contact Information:\n";
    r := AppendAll(r, ContactLines(contact));
    AppendRegroup4(text, "Contact Information:\n", Concat(ContactLines(contact)), "\n");
    r := r + "\n";
  }

  /** The skills section: at most ten, then the count of the rest. */
  method AppendSkills(text: string, skills: seq<string>) returns (r: string)
    ensures r == text + SkillsSection(skills)
  {
    r := text;
    if skills != [] {
      r := r + "Skills:\n";
      r := AppendBullets(r, Take(skills, 10));
      var more := "";
      if |skills| > 10 {
        more := "- ...and " + NatToString(|skills| - 10) + " more\n";
      }
      assert more == MoreSkillsLine(|skills|);
      AppendRegroup(text, "Skills:\n", BulletLines(Take(skills, 10)), more, "\n");
      r := r + more + "\n";
    }
  }

  /** The education section. */
  method AppendEducation(text: string, education: seq<Education>) returns (r: string)
    ensures r == text + EducationSection(education)
  {
    r := text;
    if education != [] {
      r := r + "Education:\n";
      r := AppendBullets(r, EducationTexts(education));
      r := r + "\n";
    }
  }

  /** The experience section, one entry and its description at a time. */
  method AppendExperience(text: string, experience: seq<Experience>) returns (r: string)
    ensures r == text + ExperienceSection(experience)
  {
    r := text;
    if experience != [] {
      r := r + "Experience:\n";
      r := AppendAll(r, ExperienceBlocks(experience));
      AppendRegroup4(text, "Experience:\n", Concat(ExperienceBlocks(experience)), "\n");
      r := r + "\n";
    }
  }

  /** `summarize_cv`. */
  method SummarizeCv(cv: CandidateRecord) returns (summary: string)
    ensures summary == CvSummary(cv)
  {
    summary := "CV Summary: " + Get(cv.contactInfo, "name", "Unknown Candidate") + "\n\n";
    summary := AppendContact(summary, cv.contactInfo);
    summary := AppendSkills(summary, cv.skills);
    summary := AppendEducation(summary, cv.education);
    summary := AppendExperience(summary, cv.experience);
    ConcatFive(CvPieces(cv));
  }

  /** Each part occurs in the summary, the header first. */
  lemma CvPiecesOccur(cv: CandidateRecord)
    ensures StartsWith(CvSummary(cv), CvHeader(cv))
    ensures forall i :: 0 <= i < |CvPieces(cv)| ==> Contains(CvSummary(cv), CvPieces(cv)[i])
  {
    var pieces := CvPieces(cv);
    assert CvSummary(cv) == pieces[0] + Concat(pieces[1..]);
    assert CvSummary(cv)[..|pieces[0]|] == pieces[0];
    forall i | 0 <= i < |pieces| ensures Contains(CvSummary(cv), pieces[i]) {
      ConcatContains(pieces, i);
    }
  }

  /** Every contact entry with a value, other than the name, has its line
      in the summary. */
  lemma CvSummaryContacts(cv: CandidateRecord, i: nat)
    requires i < |cv.contactInfo| && cv.contactInfo[i].0 != "name" && cv.contactInfo[i].1 != ""
    ensures Contains(CvSummary(cv), "- " + Title(cv.contactInfo[i].0) + ": " + cv.contactInfo[i].1 + "\n")
  {
    var lines := ContactLines(cv.contactInfo);
    CvPiecesOccur(cv);
    assert Contains(CvSummary(cv), CvPieces(cv)[1]);
    ConcatContains(lines, i);
    ContactInPart(cv.contactInfo, "- " + Title(cv.contactInfo[i].0) + ": " + cv.contactInfo[i].1 + "\n", i);
    ContainsTrans(CvSummary(cv), ContactSection(cv.contactInfo), lines[i]);
  }

  /** A helper for the step above: the line is the entry's line. */
  lemma ContactInPart(contact: Dict, line: string, i: nat)
    requires i < |contact| && contact[i].0 != "name" && contact[i].1 != ""
    requires line == "- " + Title(contact[i].0) + ": " + contact[i].1 + "\n"
    ensures ContactLines(contact)[i] == line
    ensures Contains(ContactSection(contact), ContactLines(contact)[i])
  {
    ConcatContains(ContactLines(contact), i);
    ContainsPart("Contact Information:\n", Concat(ContactLines(contact)), "\n", ContactLines(contact)[i]);
  }

  /** The contact section lists nothing exactly when every entry is the
      name or has no value. */
  lemma ContactSectionBare(contact: Dict)
    ensures ContactSection(contact) == "Contact Information:\n\n" <==>
              forall i :: 0 <= i < |contact| ==> contact[i].0 == "name" || contact[i].1 == ""
  {
    var lines := ContactLines(contact);
    ConcatEmpty(lines);
    assert forall i :: 0 <= i < |contact| ==> (lines[i] == "" <==> contact[i].0 == "name" || contact[i].1 == "");
    assert |ContactSection(contact)| == 22 + |Concat(lines)|;
  }

  /** The summary lists the first ten skills and counts the rest; up to ten
      skills are listed whole with no count. */
  lemma CvSummarySkills(cv: CandidateRecord)
    ensures forall i :: 0 <= i < |cv.skills| && i < 10 ==> Contains(CvSummary(cv), "- " + cv.skills[i] + "\n")
    ensures |cv.skills| > 10 ==>
              Contains(CvSummary(cv), "- ...and " + NatToString(|cv.skills| - 10) + " more\n")
    ensures 0 < |cv.skills| <= 10 ==> SkillsSection(cv.skills) == "Skills:\n" + BulletLines(cv.skills) + "\n"
  {
    var sum := CvSummary(cv);
    var top := Take(cv.skills, 10);
    CvPiecesOccur(cv);
    assert Contains(sum, CvPieces(cv)[2]);
    forall i | 0 <= i < |cv.skills| && i < 10 ensures Contains(sum, "- " + cv.skills[i] + "\n") {
      assert top[i] == cv.skills[i];
      BulletLinesMention(top, i);
      ContainsPart("Skills:\n", BulletLines(top), MoreSkillsLine(|cv.skills|) + "\n", "- " + top[i] + "\n");
      assert SkillsSection(cv.skills) == "Skills:\n" + BulletLines(top) + (MoreSkillsLine(|cv.skills|) + "\n");
      ContainsTrans(sum, SkillsSection(cv.skills), "- " + top[i] + "\n");
    }
    if |cv.skills| > 10 {
      var more := MoreSkillsLine(|cv.skills|);
      ContainsMiddle("Skills:\n" + BulletLines(top), more, "\n");
      ContainsTrans(sum, SkillsSection(cv.skills), more);
    }
  }

  /** An education line names the degree first, then the institution and
      the year when they are given; it is empty only when all three are. */
  lemma EducationTextFacts(e: Education)
    ensures StartsWith(EducationText(e), e.degree)
    ensures e.institution != "" ==> Contains(EducationText(e), " from " + e.institution)
    ensures e.year != "" ==> Contains(EducationText(e), " (" + e.year + ")")
    ensures EducationText(e) == "" <==> e.degree == "" && e.institution == "" && e.year == ""
  {
    var inst := if e.institution != "" then " from " + e.institution else "";
    var year := if e.year != "" then " (" + e.year + ")" else "";
    assert EducationText(e) == e.degree + inst + year;
    assert EducationText(e)[..|e.degree|] == e.degree;
    ContainsMiddle(e.degree, inst, year);
    ContainsMiddle(e.degree + inst, year, "");
    assert e.degree + inst + year + "" == e.degree + inst + year;
  }

  /** The description line is dropped for an empty description, shows a
      short one whole, and never shows more than 100 of its characters. */
  lemma DescriptionLineFacts(description: string)
    ensures DescriptionLine(description) == "" <==> description == ""
    ensures 0 < |description| <= 100 ==> DescriptionLine(description) == "  " + description + "\n"
    ensures |description| > 100 ==>
              DescriptionLine(description) == "  " + description[..100] + "...\n"
    ensures |DescriptionLine(description)| <= 106
  {
  }

  /** Every education entry and every experience headline has its line in
      the summary. */
  lemma CvSummaryHistory(cv: CandidateRecord)
    ensures forall i :: 0 <= i < |cv.education| ==>
              Contains(CvSummary(cv), "- " + EducationText(cv.education[i]) + "\n")
    ensures forall i :: 0 <= i < |cv.experience| ==>
              Contains(CvSummary(cv), "- " + ExperienceHeadline(cv.experience[i]) + "\n")
  {
    var sum := CvSummary(cv);
    CvPiecesOccur(cv);
    assert Contains(sum, CvPieces(cv)[3]) && Contains(sum, CvPieces(cv)[4]);
    forall i | 0 <= i < |cv.education| ensures Contains(sum, "- " + EducationText(cv.education[i]) + "\n") {
      var texts := EducationTexts(cv.education);
      BulletLinesMention(texts, i);
      ContainsPart("Education:\n", BulletLines(texts), "\n", "- " + texts[i] + "\n");
      ContainsTrans(sum, EducationSection(cv.education), "- " + texts[i] + "\n");
    }
    forall i | 0 <= i < |cv.experience| ensures Contains(sum, "- " + ExperienceHeadline(cv.experience[i]) + "\n") {
      var entries := ExperienceBlocks(cv.experience);
      var line := "- " + ExperienceHeadline(cv.experience[i]) + "\n";
      ConcatContains(entries, i);
      ContainsMiddle("", line, DescriptionLine(cv.experience[i].description));
      assert "" + line + DescriptionLine(cv.experience[i].description) == entries[i];
      ContainsPart("Experience:\n", Concat(entries), "\n", entries[i]);
      ContainsTrans(sum, ExperienceSection(cv.experience), entries[i]);
      ContainsTrans(sum, entries[i], line);
    }
  }

  /** The summary is the header and the contact section alone exactly when
      the record has no skills, education or experience. */
  lemma CvSummaryBare(cv: CandidateRecord)
    ensures CvSummary(cv) == CvHeader(cv) + ContactSection(cv.contactInfo) <==>
              cv.skills == [] && cv.education == [] && cv.experience == []
  {
    var pieces := CvPieces(cv);
    var rest := pieces[2..];
    assert Concat(pieces) == pieces[0] + (pieces[1] + Concat(rest));
    ConcatEmpty(rest);
    assert |rest| == 3;
    assert rest[0] == "" <==> cv.skills == [];
    assert rest[1] == "" <==> cv.education == [];
    assert rest[2] == "" <==> cv.experience == [];
  }

  /** The summary of a record without contact details or content, such as
      the record made without a text processor. */
  lemma BareRecordSummary(name: string, text: string)
    ensures CvSummary(CandidateRecord(name, [], [], [], [], text))
            == "CV Summary: Unknown Candidate\n\n" + "Contact Information:\n\n"
  {
    var cv := CandidateRecord(name, [], [], [], [], text);
    CvSummaryBare(cv);
    BareRecordPieces(cv);
  }

  /** The header and the contact section of such a record. */
  lemma BareRecordPieces(cv: CandidateRecord)
    requires cv.contactInfo == []
    ensures CvHeader(cv) == "CV Summary: Unknown Candidate\n\n"
    ensures ContactSection(cv.contactInfo) == "Contact Information:\n\n"
  {
    assert ContactLines([]) == [];
    assert Concat([]) == "";
  }
}
