/** The deterministic parts of the single-file application
    (`src/matchwise_app.py`): the rule-based job-description parser, the older
    scoring variant of the matching agent, the interview email template with
    its format instructions, and the round-robin assignment of time slots when
    several interviews are booked at once. */
module MatchwiseApp {
  import opened Wrappers
  import opened Text
  import opened Records
  import opened MatchingAgent

  // ----- job descriptions: `JobDescriptionAgent.process_jd` -----

  function SkillsPattern(): Pattern {
    Pattern("(?i)(?:skills required|required " + "skills|skills|proficiency " + "in|experience with|knowledge "
            + "of)(?:\\s*:\\s*|\\s+)" + "(.*?)(?:\\.|;|$)", false)
  }

  function ExperiencePattern(): Pattern {
    Pattern("(?i)(\\d+[\\+]?(?:\\s*-\\s*\\d+)?" + "\\s+years?(?:\\s+of)?" + "\\s+experience)", false)
  }

  function EducationPattern(): Pattern {
    Pattern("(?i)(Bachelor's|Master's|PhD|" + "degree|diploma)" + "(\\s+in\\s+[\\w\\s]+)?", false)
  }

  /** The length of the separator of `re.split(r',|\sand\s|\sor\s', ...)` that
      matches at the start of `s`, alternatives tried in order; 0 when none does. */
  function SeparatorAt(s: string): nat {
    if |s| >= 1 && s[0] == ',' then 1
    else if |s| >= 5 && IsSpace(s[0]) && s[1..4] == "and" && IsSpace(s[4]) then 5
    else if |s| >= 4 && IsSpace(s[0]) && s[1..3] == "or" && IsSpace(s[3]) then 4
    else 0
  }

  /** Scans `s` left to right: `cur` is the token read so far. */
  function SplitFrom(s: string, cur: string): (tokens: seq<string>)
    ensures |tokens| >= 1
    decreases |s|
  {
    if s == [] then [cur]
    else if SeparatorAt(s) > 0 then [cur] + SplitFrom(s[SeparatorAt(s)..], "")
    else SplitFrom(s[1..], cur + [s[0]])
  }

  /** `re.split(r',|\sand\s|\sor\s', span)`. */
  function SplitSkills(span: string): seq<string> {
    SplitFrom(span, "")
  }

  /** No token holds a comma: every comma is a separator. */
  lemma {:induction false} SplitFromNoComma(s: string, cur: string)
    requires ',' !in cur
    ensures forall k :: 0 <= k < |SplitFrom(s, cur)| ==> ',' !in SplitFrom(s, cur)[k]
    decreases |s|
  {
    if s != [] {
      if SeparatorAt(s) > 0 {
        SplitFromNoComma(s[SeparatorAt(s)..], "");
      } else {
        SplitFromNoComma(s[1..], cur + [s[0]]);
      }
    }
  }

  lemma SplitSkillsNoComma(span: string)
    ensures forall k :: 0 <= k < |SplitSkills(span)| ==> ',' !in SplitSkills(span)[k]
  {
    SplitFromNoComma(span, "");
  }

  /** Two first occurrences of the same character are at the same index. */
  lemma IndexOfAfterHead(s: string, d: char)
    requires d in s && s[0] != d
    ensures d in s[1..] && IndexOf(s, d) == IndexOf(s[1..], d) + 1
  {
  }

  lemma {:induction false} SplitFromWithoutSpace(s: string, cur: string)
    requires forall i :: 0 <= i < |s| ==> !IsSpace(s[i])
    ensures SplitFrom(s, cur) == [cur + SplitOn(s, ',')[0]] + SplitOn(s, ',')[1..]
    decreases |s|, 1
  {
    if s == [] {
      assert SplitOn(s, ',') == [s];
      assert cur + s == cur;
    } else if s[0] == ',' {
      SplitFromCommaHead(s, cur);
    } else {
      SplitFromPlainHead(s, cur);
    }
  }

  lemma {:induction false} SplitFromCommaHead(s: string, cur: string)
    requires s != [] && s[0] == ','
    requires forall i :: 0 <= i < |s| ==> !IsSpace(s[i])
    ensures SplitFrom(s, cur) == [cur + SplitOn(s, ',')[0]] + SplitOn(s, ',')[1..]
    decreases |s|, 0
  {
    assert SeparatorAt(s) == 1;
    SplitFromWithoutSpace(s[1..], "");
    var p := SplitOn(s[1..], ',');
    assert "" + p[0] == p[0];
    assert [p[0]] + p[1..] == p;
    assert SplitFrom(s, cur) == [cur] + p;
    assert s[..0] == "";
    SplitOnStep(s, ',', 0);
    ConsParts("", p);
    assert cur + "" == cur;
  }

  lemma {:induction false} SplitFromPlainHead(s: string, cur: string)
    requires s != [] && s[0] != ','
    requires forall i :: 0 <= i < |s| ==> !IsSpace(s[i])
    ensures SplitFrom(s, cur) == [cur + SplitOn(s, ',')[0]] + SplitOn(s, ',')[1..]
    decreases |s|, 0
  {
    assert !IsSpace(s[0]);
    assert SeparatorAt(s) == 0;
    var t := s[1..];
    var c := cur + [s[0]];
    NoSpaceTail(s);
    SplitFromWithoutSpace(t, c);
    assert SplitFrom(s, cur) == SplitFrom(t, c);
    var p := SplitOn(t, ',');
    var q := SplitOn(s, ',');
    SplitOnPlainHead(s, ',');
    assert c + p[0] == cur + q[0];
  }

  lemma NoSpaceTail(s: string)
    requires s != [] && forall i :: 0 <= i < |s| ==> !IsSpace(s[i])
    ensures forall i :: 0 <= i < |s[1..]| ==> !IsSpace(s[1..][i])
  {
    forall i | 0 <= i < |s[1..]| ensures !IsSpace(s[1..][i]) {
      assert s[1..][i] == s[i + 1];
    }
  }

  /** Splitting a text that does not start with the separator: the head joins
      the first part. */
  lemma SplitOnPlainHead(s: string, d: char)
    requires s != [] && s[0] != d
    ensures SplitOn(s, d)[0] == [s[0]] + SplitOn(s[1..], d)[0]
    ensures SplitOn(s, d)[1..] == SplitOn(s[1..], d)[1..]
  {
    var t := s[1..];
    if d in s {
      IndexOfAfterHead(s, d);
      var i := IndexOf(s, d);
      TailSlices(s, i);
      var rest := SplitOn(s[i + 1..], d);
      SplitOnStep(s, d, i);
      ConsParts(s[..i], rest);
      SplitOnStep(t, d, i - 1);
      ConsParts(s[1..i], rest);
      assert [s[0]] + s[1..i] == s[..i];
    } else {
      assert d !in t;
      assert SplitOn(s, d) == [s] && SplitOn(t, d) == [t];
    }
  }

  lemma TailSlices(s: string, i: nat)
    requires 1 <= i < |s|
    ensures s[1..][i - 1] == s[i] && s[1..][..i - 1] == s[1..i] && s[1..][i..] == s[i + 1..]
  {
  }

  lemma ConsParts(x: string, rest: seq<string>)
    ensures ([x] + rest)[0] == x && ([x] + rest)[1..] == rest
  {
  }

  /** On a span without whitespace only commas separate, so the split is
      Python's `span.split(",")`. */
  lemma SplitSkillsWithoutSpace(span: string)
    requires forall i :: 0 <= i < |span| ==> !IsSpace(span[i])
    ensures SplitSkills(span) == SplitOn(span, ',')
  {
    SplitFromWithoutSpace(span, "");
    var p := SplitOn(span, ',');
    assert "" + p[0] == p[0];
    assert [p[0]] + p[1..] == p;
  }

  /** The stripped tokens longer than two characters, in order
      (`if skill and len(skill) > 2`). */
  function Kept(tokens: seq<string>): seq<string> {
    if tokens == [] then []
    else
      var t := Strip(tokens[|tokens| - 1]);
      Kept(tokens[..|tokens| - 1]) + (if t != "" && |t| > 2 then [t] else [])
  }

  /** One more token read after the skills `head` already collected. */
  lemma KeptSnoc(head: seq<string>, tokens: seq<string>, j: nat)
    requires j < |tokens|
    ensures head + Kept(tokens[..j + 1])
            == head + Kept(tokens[..j]) + (if |Strip(tokens[j])| > 2 then [Strip(tokens[j])] else [])
  {
    assert tokens[..j + 1][..j] == tokens[..j];
  }

  /** A kept skill is a stripped token longer than two characters. */
  lemma {:induction false} KeptSound(tokens: seq<string>, t: string) returns (j: nat)
    requires t in Kept(tokens)
    ensures j < |tokens| && t == Strip(tokens[j]) && |t| > 2
  {
    var init := tokens[..|tokens| - 1];
    var last := Strip(tokens[|tokens| - 1]);
    if t in Kept(init) {
      j := KeptSound(init, t);
      assert init[j] == tokens[j];
    } else {
      assert t == last;
      j := |tokens| - 1;
    }
  }

  /** Every stripped token longer than two characters is kept. */
  lemma {:induction false} KeptComplete(tokens: seq<string>, j: nat)
    requires j < |tokens| && |Strip(tokens[j])| > 2
    ensures Strip(tokens[j]) in Kept(tokens)
  {
    var init := tokens[..|tokens| - 1];
    if j < |init| {
      assert init[j] == tokens[j];
      KeptComplete(init, j);
      KeptKeepsInit(tokens, Strip(tokens[j]));
    } else {
      KeptKeepsLast(tokens);
    }
  }

  lemma KeptKeepsInit(tokens: seq<string>, x: string)
    requires tokens != [] && x in Kept(tokens[..|tokens| - 1])
    ensures x in Kept(tokens)
  {
    var t := Strip(tokens[|tokens| - 1]);
    InAppend(Kept(tokens[..|tokens| - 1]), if t != "" && |t| > 2 then [t] else [], x);
  }

  lemma KeptKeepsLast(tokens: seq<string>)
    requires tokens != [] && |Strip(tokens[|tokens| - 1])| > 2
    ensures Strip(tokens[|tokens| - 1]) in Kept(tokens)
  {
    var t := Strip(tokens[|tokens| - 1]);
    InAppendRight(Kept(tokens[..|tokens| - 1]), [t], t);
  }

  /** The token list of every match of `SkillsPattern()`: its group 1, split. */
  function Spans(found: seq<Groups>): (spans: seq<seq<string>>)
    ensures |spans| == |found|
  {
    seq(|found|, i requires 0 <= i < |found| => SplitSkills(Group(found[i], 1)))
  }

  /** The skills harvested from the token lists, in order: every list
      filtered by `Kept`. */
  function Harvest(spans: seq<seq<string>>): seq<string> {
    if spans == [] then []
    else Harvest(spans[..|spans| - 1]) + Kept(spans[|spans| - 1])
  }

  lemma HarvestSnoc(spans: seq<seq<string>>, i: nat)
    requires i < |spans|
    ensures Harvest(spans[..i + 1]) == Harvest(spans[..i]) + Kept(spans[i])
  {
    assert spans[..i + 1][..i] == spans[..i];
  }

  /** A harvested skill comes from one of the token lists. */
  lemma {:induction false} HarvestSound(spans: seq<seq<string>>, t: string) returns (i: nat)
    requires t in Harvest(spans)
    ensures i < |spans| && t in Kept(spans[i])
  {
    var init := spans[..|spans| - 1];
    if t in Harvest(init) {
      i := HarvestSound(init, t);
      assert init[i] == spans[i];
    } else {
      i := |spans| - 1;
    }
  }

  /** Every skill kept from one of the token lists is harvested. */
  lemma {:induction false} HarvestComplete(spans: seq<seq<string>>, i: nat, t: string)
    requires i < |spans| && t in Kept(spans[i])
    ensures t in Harvest(spans)
  {
    var init := spans[..|spans| - 1];
    var last := Kept(spans[|spans| - 1]);
    assert Harvest(spans) == Harvest(init) + last;
    if i < |init| {
      assert init[i] == spans[i];
      HarvestComplete(init, i, t);
      InAppend(Harvest(init), last, t);
    } else {
      InAppendRight(Harvest(init), last, t);
    }
  }

  /** The harvested skills are exactly the stripped tokens of the matches'
      spans that are longer than two characters. */
  lemma HarvestMembers(found: seq<Groups>, t: string)
    ensures t in Harvest(Spans(found)) <==>
              exists i, j :: 0 <= i < |found| && 0 <= j < |SplitSkills(Group(found[i], 1))|
                             && t == Strip(SplitSkills(Group(found[i], 1))[j]) && |t| > 2
  {
    var spans := Spans(found);
    if t in Harvest(spans) {
      var i := HarvestSound(spans, t);
      var j := KeptSound(spans[i], t);
      assert spans[i] == SplitSkills(Group(found[i], 1));
    }
    if exists i, j :: 0 <= i < |found| && 0 <= j < |SplitSkills(Group(found[i], 1))|
                      && t == Strip(SplitSkills(Group(found[i], 1))[j]) && |t| > 2 {
      var i, j :| 0 <= i < |found| && 0 <= j < |SplitSkills(Group(found[i], 1))|
                  && t == Strip(SplitSkills(Group(found[i], 1))[j]) && |t| > 2;
      assert spans[i] == SplitSkills(Group(found[i], 1));
      KeptComplete(spans[i], j);
      HarvestComplete(spans, i, t);
    }
  }

  /** `' '.join(filter(None, groups))`: the non-empty groups. */
  function NonEmpty(xs: seq<string>): (r: seq<string>)
    ensures forall x :: x in r <==> x in xs && x != ""
  {
    if xs == [] then [] else (if xs[0] != "" then [xs[0]] else []) + NonEmpty(xs[1..])
  }

  /** The first experience match, or "Not specified". */
  function ExperienceOf(re: Regex, description: string): string {
    var found := re.findall(ExperiencePattern(), description);
    if found == [] then "Not specified" else Group(found[0], 1)
  }

  /** The non-empty groups of the first education match joined by a space, or
      "Not specified". */
  function EducationOf(re: Regex, description: string): string {
    var found := re.findall(EducationPattern(), description);
    if found == [] then "Not specified" else Join(NonEmpty([Group(found[0], 1), Group(found[0], 2)]), " ")
  }

  /** The record `process_jd` returns; the keys it does not set read as empty. */
  function JdRecord(re: Regex, title: string, description: string): JobRecord {
    JobRecord(Some(title), Some(description), Take(Harvest(Spans(re.findall(SkillsPattern(), description))), 10), [],
              ExperienceOf(re, description), EducationOf(re, description), [])
  }

  /** The inner loop of `process_jd`: every token of one span stripped and,
      when longer than two characters, appended to `skills`. */
  method AppendKept(skills: seq<string>, tokens: seq<string>) returns (r: seq<string>)
    ensures r == skills + Kept(tokens)
  {
    r := skills;
    var j := 0;
    while j < |tokens|
      invariant 0 <= j <= |tokens|
      invariant r == skills + Kept(tokens[..j])
    {
      var skill := Strip(tokens[j]);
      KeptSnoc(skills, tokens, j);
      if skill != "" && |skill| > 2 {
        r := r + [skill];
      }
      j := j + 1;
    }
    assert tokens[..j] == tokens;
  }

  /** The outer loop of `process_jd`: the skills of every match, in order. */
  method HarvestSkills(found: seq<Groups>) returns (skills: seq<string>)
    ensures skills == Harvest(Spans(found))
  {
    skills := [];
    var i := 0;
    ghost var spans := Spans(found);
    while i < |found|
      invariant 0 <= i <= |found|
      invariant skills == Harvest(spans[..i])
    {
      var tokens := SplitSkills(Group(found[i], 1));
      assert tokens == spans[i];
      HarvestSnoc(spans, i);
      skills := AppendKept(skills, tokens);
      i := i + 1;
    }
    assert spans[..i] == spans;
  }

  /** `process_jd`. */
  method ProcessJd(re: Regex, title: string, description: string) returns (job: JobRecord)
    ensures job == JdRecord(re, title, description)
  {
    var found := re.findall(SkillsPattern(), description);
    var skills := HarvestSkills(found);
    var experience := "Not specified";
    var expFound := re.findall(ExperiencePattern(), description);
    if expFound != [] {
      experience := Group(expFound[0], 1);
    }
    var education := "Not specified";
    var eduFound := re.findall(EducationPattern(), description);
    if eduFound != [] {
      education := Join(NonEmpty([Group(eduFound[0], 1), Group(eduFound[0], 2)]), " ");
    }
    job := JobRecord(Some(title), Some(description), Take(skills, 10), [], experience, education, []);
  }

  /** What `process_jd` returns: at most the first ten harvested skills, in
      order; experience and education from the first match of their pattern,
      or "Not specified" when there is none. */
  lemma JdRecordFacts(re: Regex, title: string, description: string)
    ensures var job := JdRecord(re, title, description);
            var all := Harvest(Spans(re.findall(SkillsPattern(), description)));
            var exp := re.findall(ExperiencePattern(), description);
            var edu := re.findall(EducationPattern(), description);
            && job.title == Some(title) && job.description == Some(description)
            && |job.requiredSkills| == (if |all| <= 10 then |all| else 10)
            && job.requiredSkills == all[..|job.requiredSkills|]
            && (exp == [] ==> job.requiredExperience == "Not specified")
            && (exp != [] ==> job.requiredExperience == Group(exp[0], 1))
            && (edu == [] ==> job.requiredEducation == "Not specified")
            && (edu != [] && Group(edu[0], 1) != "" ==>
                  job.requiredEducation == if Group(edu[0], 2) == "" then Group(edu[0], 1)
                                           else Group(edu[0], 1) + " " + Group(edu[0], 2))
  {
    var edu := re.findall(EducationPattern(), description);
    if edu != [] && Group(edu[0], 1) != "" {
      var g1 := Group(edu[0], 1);
      var g2 := Group(edu[0], 2);
      assert [g1, g2][1..] == [g2] && [g2][1..] == [];
      assert NonEmpty([g2]) == (if g2 != "" then [g2] else []) + NonEmpty([]);
      if g2 == "" {
        assert NonEmpty([g1, g2]) == [g1] + [];
      } else {
        assert NonEmpty([g1, g2]) == [g1] + [g2];
        assert Join([g1, g2], " ") == g1 + " " + Join([g2], " ");
      }
    }
  }

  // ----- scoring: `MatchingAgent.calculate_match` -----

  /** `any(skill in c.lower() for c in owned)`. */
  predicate AnyContains(owned: seq<string>, skill: string) {
    exists c :: c in owned && Contains(Lower(c), skill)
  }

  /** The number of required skills that occur inside some owned skill. */
  function MatchedCount(required: seq<string>, owned: seq<string>): (n: nat)
    ensures n <= |required|
  {
    if required == [] then 0
    else MatchedCount(required[..|required| - 1], owned) + (if AnyContains(owned, required[|required| - 1]) then 1 else 0)
  }

  /** `matched / len(job_skills)`, or 0.5 when no skills are required. */
  function AppSkillScore(required: seq<string>, owned: seq<string>): (s: real)
    ensures required == [] ==> s == 0.5
    ensures required != [] ==> s == MatchedCount(LowerAll(required), LowerAll(owned)) as real / |required| as real
    ensures 0.0 <= s <= 1.0
  {
    if required == [] then 0.5 else MatchedCount(LowerAll(required), LowerAll(owned)) as real / |required| as real
  }

  /** `min(hi, max(lo, x))`. */
  function Clamp(lo: real, hi: real, x: real): (r: real)
    requires lo <= hi
    ensures lo <= r <= hi
    ensures lo <= x <= hi ==> r == x
  {
    if x < lo then lo else if x > hi then hi else x
  }

  /** The weighted sum before clamping. */
  function RawScore(skills: real, exp: real, edu: real): real {
    skills * 0.5 + exp * 0.3 + edu * 0.2
  }

  /** The dictionary `calculate_match` returns. */
  datatype AppScores = AppScores(matchScore: real, skillsScore: real, experienceScore: real, educationScore: real,
                                 isShortlisted: bool)

  /** The random experience and education terms `0.7 + uniform(-0.2, 0.2)`. */
  predicate Draw(x: real) { 0.5 <= x <= 0.9 }

  function AppScoresOf(job: JobRecord, cand: CandidateRecord, exp: real, edu: real): AppScores {
    var s := AppSkillScore(job.requiredSkills, cand.skills);
    var raw := RawScore(s, exp, edu);
    AppScores(Clamp(0.5, 0.98, raw), Clamp(0.5, 0.95, s), Clamp(0.5, 0.95, exp), Clamp(0.5, 0.95, edu), raw > 0.75)
  }

  /** `calculate_match` with the two random terms as inputs: the counter loop
      over the lowercased required skills. */
  method CalculateMatch(job: JobRecord, cand: CandidateRecord, exp: real, edu: real) returns (r: AppScores)
    requires Draw(exp) && Draw(edu)
    ensures r == AppScoresOf(job, cand, exp, edu)
  {
    var required := LowerAll(job.requiredSkills);
    var owned := LowerAll(cand.skills);
    var matched := 0;
    var i := 0;
    while i < |required|
      invariant 0 <= i <= |required|
      invariant matched == MatchedCount(required[..i], owned)
    {
      if AnyContains(owned, required[i]) {
        matched := matched + 1;
      }
      assert required[..i + 1][..i] == required[..i];
      i := i + 1;
    }
    assert required[..i] == required;
    var skillScore := if job.requiredSkills != [] then matched as real / |job.requiredSkills| as real else 0.5;
    var matchScore := skillScore * 0.5 + exp * 0.3 + edu * 0.2;
    r := AppScores(Clamp(0.5, 0.98, matchScore), Clamp(0.5, 0.95, skillScore), Clamp(0.5, 0.95, exp),
                   Clamp(0.5, 0.95, edu), matchScore > 0.75);
  }

  /** The reported scores are clamped: the total to [0.5, 0.98], each
      component to [0.5, 0.95]; the random terms are reported unchanged. */
  lemma AppScoresBounds(job: JobRecord, cand: CandidateRecord, exp: real, edu: real)
    requires Draw(exp) && Draw(edu)
    ensures var r := AppScoresOf(job, cand, exp, edu);
            && 0.5 <= r.matchScore <= 0.98 && 0.5 <= r.skillsScore <= 0.95
            && r.experienceScore == exp && r.educationScore == edu
  {
  }

  /** Without required skills the skills score is 0.5 and the weighted sum at
      most 0.25 + 0.27 + 0.18 = 0.70, so nobody is shortlisted. */
  lemma NoRequiredSkillsNeverShortlisted(job: JobRecord, cand: CandidateRecord, exp: real, edu: real)
    requires Draw(exp) && Draw(edu) && job.requiredSkills == []
    ensures !AppScoresOf(job, cand, exp, edu).isShortlisted
  {
  }

  /** Being shortlisted needs required skills and more than 60% of them
      matched, whatever the random terms. */
  lemma ShortlistNeedsSkills(job: JobRecord, cand: CandidateRecord, exp: real, edu: real)
    requires Draw(exp) && Draw(edu)
    requires AppScoresOf(job, cand, exp, edu).isShortlisted
    ensures job.requiredSkills != []
    ensures AppSkillScore(job.requiredSkills, cand.skills) > 0.6
  {
  }

  /** With every required skill matched the outcome rests on the strict
      comparison: shortlisted unless both random terms are at their minimum. */
  lemma AllSkillsMatched(job: JobRecord, cand: CandidateRecord, exp: real, edu: real)
    requires Draw(exp) && Draw(edu) && job.requiredSkills != []
    requires MatchedCount(LowerAll(job.requiredSkills), LowerAll(cand.skills)) == |job.requiredSkills|
    ensures AppScoresOf(job, cand, exp, edu).isShortlisted <==> exp > 0.5 || edu > 0.5
  {
    var n := |job.requiredSkills| as real;
    assert n / n == 1.0;
  }

  /** The skills that `MatchingAgent.SelectBy` keeps are counted by `MatchedCount`:
      a skill equal to a lowercase owned skill occurs inside it. */
  lemma {:induction false} ExactCountedBySubstring(required: seq<string>, owned: seq<string>)
    requires forall c :: c in owned ==> Lower(c) == c
    ensures |SelectBy(required, owned, true)| <= MatchedCount(required, owned)
    decreases |required|
  {
    if required != [] {
      var init := required[..|required| - 1];
      var x := required[|required| - 1];
      assert required == init + [x];
      SelectAppend(init, [x], owned, true);
      ExactCountedBySubstring(init, owned);
      if x in owned {
        assert x[..|x|] == x;
        assert Contains(Lower(x), x);
      }
    }
  }

  lemma DivideMonotone(a: real, b: real, n: real)
    requires 0.0 <= a <= b && n > 0.0
    ensures a / n <= b / n
  {
    assert b / n - a / n == (b - a) / n;
  }

  /** The lowercased skills are their own lowercase. */
  lemma LowerAllLower(xs: seq<string>)
    ensures forall c :: c in LowerAll(xs) ==> Lower(c) == c
  {
    forall c | c in LowerAll(xs) ensures Lower(c) == c {
      var k :| 0 <= k < |xs| && LowerAll(xs)[k] == c;
      LowerIdempotent(xs[k]);
    }
  }

  /** Substring matching never scores a candidate's skills below exact
      matching of the same lists. */
  lemma SubstringScoreAtLeastExact(required: seq<string>, owned: seq<string>)
    requires required != []
    ensures CompareSkills(LowerAll(required), LowerAll(owned)).score <= AppSkillScore(required, owned)
  {
    var lr := LowerAll(required);
    var lo := LowerAll(owned);
    LowerAllLower(owned);
    ExactCountedBySubstring(lr, lo);
    var m := CompareSkills(lr, lo);
    assert m.exactMatches == SelectBy(lr, lo, true);
    DivideMonotone(|m.exactMatches| as real, MatchedCount(lr, lo) as real, |required| as real);
  }

  /** The two variants disagree: "Java" is inside "JavaScript" for this scorer
      but not equal to it for the agent's exact matcher. */
  lemma JavaInsideJavaScript()
    ensures AppSkillScore(["Java"], ["JavaScript"]) == 1.0
    ensures CompareSkills(LowerAll(["Java"]), LowerAll(["JavaScript"])).score == 0.0
  {
    assert Lower("Java") == "java" by {
      assert LowerChar('J') == 'j';
    }
    assert Lower("JavaScript") == "javascript" by {
      assert LowerChar('J') == 'j' && LowerChar('S') == 's';
    }
    assert LowerAll(["Java"]) == ["java"];
    assert LowerAll(["JavaScript"]) == ["javascript"];
    assert Lower("javascript") == "javascript";
    assert "javascript"[..4] == "java";
    assert Contains(Lower("javascript"), "java");
    assert AnyContains(["javascript"], "java");
    assert MatchedCount(["java"], ["javascript"]) == 1 by {
      assert ["java"][..0] == [];
    }
    assert "java" !in ["javascript"];
    assert SelectBy(["java"], ["javascript"], true) == [];
  }

  // ----- interview email: `InterviewAgent.generate_email` -----

  /** The fixed text of the interview agent's template email, piece by piece
      between the substituted values, and its three format instructions. */
  datatype InviteLetter = InviteLetter(subject: string, hope: string, details: string, closing: string,
                                       videoCall: string, phoneCall: string, inPerson: string)

  /** The email side of `InterviewAgent`: the text it writes out. */
  datatype InterviewAgent = InterviewAgent(letter: InviteLetter)

  /** The text `generate_email` and `_get_format_instructions` write out. */
  function MatchwiseLetter(): InviteLetter {
    InviteLetter(
      "Subject: Interview " + "Invitation for ",
      ",\n\nI hope this email " + "finds you well. We appreciate " + "your interest in the ",
      ".\n\nAfter carefully reviewing " + "your application, we " + "are pleased to invite "
      + "you for an interview. " + "Your qualifications " + "and experience match " + "what we're looking for "
      + "in this role.\n\nInterview " + "Details:\n- Position: ",
      "\n\nPlease confirm your " + "availability for this " + "interview by replying "
      + "to this email. If you " + "need to reschedule, " + "please provide alternative "
      + "dates and times that " + "work for you.\n\nIf you " + "have any questions before "
      + "the interview, feel " + "free to reach out to " + "us.\n\nWe look forward " + "to speaking with you "
      + "and learning more about " + "your experience and " + "skills.\n\nBest regards,\n\nRecruitment "
      + "Team\n",
      "You will receive a separate " + "email with a link to " + "join the video call "
      + "closer to the interview " + "date.",
      "Our recruiter will call " + "you at the phone number " + "provided in your application.",
      "Please arrive 10 minutes " + "early. The interview " + "will take place at our "
      + "main office. Details " + "about the location and " + "parking will be sent " + "in a follow-up email.")
  }

  /** The three format instructions differ from each other. */
  predicate DistinctInstructions(l: InviteLetter) {
    l.videoCall != l.phoneCall && l.videoCall != l.inPerson && l.phoneCall != l.inPerson
  }

  /** `InterviewAgent()`: the agent with the application's own text, whose
      three format instructions differ. */
  function NewInterviewAgent(): (a: InterviewAgent)
    ensures DistinctInstructions(a.letter)
  {
    var l := MatchwiseLetter();
    assert l.videoCall[0] == 'Y' && l.phoneCall[0] == 'O' && l.inPerson[0] == 'P';
    InterviewAgent(l)
  }

  /** `_get_format_instructions`: chosen on the lowercased format. */
  function FormatInstructions(a: InterviewAgent, format: string): string {
    if Lower(format) == "video call" then a.letter.videoCall
    else if Lower(format) == "phone call" then a.letter.phoneCall
    else a.letter.inPerson
  }

  /** Each of the three texts is chosen for exactly its own formats: the
      three texts differ, so the text tells which branch was taken. */
  lemma FormatInstructionsChoice(a: InterviewAgent, format: string)
    requires DistinctInstructions(a.letter)
    ensures FormatInstructions(a, format) == a.letter.videoCall <==> Lower(format) == "video call"
    ensures FormatInstructions(a, format) == a.letter.phoneCall <==> Lower(format) == "phone call"
    ensures FormatInstructions(a, format) == a.letter.inPerson
            <==> Lower(format) != "video call" && Lower(format) != "phone call"
  {
  }

  /** The choice ignores case. */
  lemma FormatInstructionsIgnoreCase(a: InterviewAgent, format: string)
    ensures FormatInstructions(a, format) == FormatInstructions(a, Lower(format))
  {
    LowerIdempotent(format);
  }

  /** The three formats the scheduling form offers get their own instructions. */
  lemma FormFormatsCovered(a: InterviewAgent)
    ensures FormatInstructions(a, "Video Call") == a.letter.videoCall
    ensures FormatInstructions(a, "Phone Call") == a.letter.phoneCall
    ensures FormatInstructions(a, "In-person") == a.letter.inPerson
  {
    assert Lower("Video Call") == "video call" by {
      assert LowerChar('V') == 'v' && LowerChar('C') == 'c';
    }
    assert Lower("Phone Call") == "phone call" by {
      assert LowerChar('P') == 'p' && LowerChar('C') == 'c';
    }
    assert Lower("In-person")[0] == 'i';
  }

  /** The pieces of the template in order: fixed text at the even positions,
      substituted values at the odd ones. */
  function InviteParts(a: InterviewAgent, jobTitle: string, candidateName: string, date: string, time: string,
                       format: string, company: string): seq<string> {
    var l := a.letter;
    [ "\n", l.subject, jobTitle, " position at ", company, "\n\nDear ", candidateName, l.hope, jobTitle,
      " position at ", company, l.details, jobTitle, "\n- Date: ", date, "\n- Time: ", time,
      "\n- Format: ", format, "\n\n", FormatInstructions(a, format), l.closing, company, "\n        " ]
  }

  /** `generate_email`: the template f-string, returned without stripping. */
  function InviteEmail(a: InterviewAgent, jobTitle: string, candidateName: string, date: string, time: string,
                       format: string, company: string := "Matchwise"): string {
    Concat(InviteParts(a, jobTitle, candidateName, date, time, format, company))
  }

  /** The email names the job, the candidate, the date, the time, the format,
      its instructions and the company. */
  lemma InviteEmailMentions(a: InterviewAgent, jobTitle: string, candidateName: string, date: string, time: string,
                            format: string, company: string)
    ensures var r := InviteEmail(a, jobTitle, candidateName, date, time, format, company);
            && Contains(r, jobTitle) && Contains(r, candidateName) && Contains(r, date) && Contains(r, time)
            && Contains(r, format) && Contains(r, FormatInstructions(a, format)) && Contains(r, company)
  {
    var parts := InviteParts(a, jobTitle, candidateName, date, time, format, company);
    InvitePartsOccur(parts);
  }

  /** The substituted pieces of a template occur in its text. */
  lemma InvitePartsOccur(parts: seq<string>)
    requires |parts| == 24
    ensures && Contains(Concat(parts), parts[2]) && Contains(Concat(parts), parts[4])
            && Contains(Concat(parts), parts[6]) && Contains(Concat(parts), parts[14])
            && Contains(Concat(parts), parts[16]) && Contains(Concat(parts), parts[18])
            && Contains(Concat(parts), parts[20])
  {
    ConcatContains(parts, 2);
    ConcatContains(parts, 4);
    ConcatContains(parts, 6);
    ConcatContains(parts, 14);
    ConcatContains(parts, 16);
    ConcatContains(parts, 18);
    ConcatContains(parts, 20);
  }

  /** The email keeps the template's leading line break and trailing
      indentation: `generate_email` does not strip it. */
  lemma InviteEmailEnds(a: InterviewAgent, jobTitle: string, candidateName: string, date: string, time: string,
                        format: string, company: string)
    ensures var r := InviteEmail(a, jobTitle, candidateName, date, time, format, company);
            |r| > 0 && r[0] == '\n' && r[|r| - 1] == ' '
  {
    ConcatEnds(InviteParts(a, jobTitle, candidateName, date, time, format, company));
  }

  // ----- booking several interviews: `render_interviews_page` -----

  /** The booking of one interview for a match at a time slot (the date and
      format are the same for the whole batch): the interview id, or `None`
      when the match does not exist. */
  type Booker = (int, string) -> Option<int>

  /** `if interview_id:` — a missing id and the id 0 count as a failure. */
  predicate Booked(id: Option<int>) {
    id.Some? && id.value != 0
  }

  /** The calls made so far and the number of successful ones. */
  datatype Run = Run(calls: seq<(int, string)>, scheduled: nat)

  /** The loop over the selected matches: each is booked at the slot indexed
      by the number of successful bookings so far, round robin. */
  function RoundRobin(ids: seq<int>, slots: seq<string>, book: Booker): Run
    requires slots != []
  {
    if ids == [] then Run([], 0)
    else
      var prev := RoundRobin(ids[..|ids| - 1], slots, book);
      var call := (ids[|ids| - 1], slots[prev.scheduled % |slots|]);
      Run(prev.calls + [call], prev.scheduled + if Booked(book(call.0, call.1)) then 1 else 0)
  }

  /** The outcome of submitting the scheduling form. */
  datatype Booking = NoCandidates | NoSlots | Scheduled(run: Run)

  /** The submit branch of the scheduling form: the two refusals, then the
      loop with its `scheduled_count` counter. */
  method BookInterviews(ids: seq<int>, slots: seq<string>, book: Booker) returns (r: Booking)
    ensures ids == [] ==> r == NoCandidates
    ensures ids != [] && slots == [] ==> r == NoSlots
    ensures ids != [] && slots != [] ==> r == Scheduled(RoundRobin(ids, slots, book))
  {
    if ids == [] {
      return NoCandidates;
    }
    if slots == [] {
      return NoSlots;
    }
    var calls: seq<(int, string)> := [];
    var count := 0;
    var i := 0;
    while i < |ids|
      invariant 0 <= i <= |ids|
      invariant Run(calls, count) == RoundRobin(ids[..i], slots, book)
    {
      var slot := slots[count % |slots|];
      var id := book(ids[i], slot);
      calls := calls + [(ids[i], slot)];
      if Booked(id) {
        count := count + 1;
      }
      assert ids[..i + 1][..i] == ids[..i];
      i := i + 1;
    }
    assert ids[..i] == ids;
    r := Scheduled(Run(calls, count));
  }

  /** The calls whose booking succeeded, in order. */
  function Successes(calls: seq<(int, string)>, book: Booker): seq<(int, string)> {
    if calls == [] then []
    else
      var last := calls[|calls| - 1];
      Successes(calls[..|calls| - 1], book) + if Booked(book(last.0, last.1)) then [last] else []
  }

  /** Every match is tried once, in order, at one of the slots. */
  lemma {:induction false} RoundRobinCalls(ids: seq<int>, slots: seq<string>, book: Booker)
    requires slots != []
    ensures var run := RoundRobin(ids, slots, book);
            && |run.calls| == |ids|
            && forall i :: 0 <= i < |ids| ==> run.calls[i].0 == ids[i] && run.calls[i].1 in slots
  {
    if ids != [] {
      var init := ids[..|ids| - 1];
      RoundRobinCalls(init, slots, book);
      var prev := RoundRobin(init, slots, book);
      var run := RoundRobin(ids, slots, book);
      assert forall i :: 0 <= i < |init| ==> run.calls[i] == prev.calls[i];
    }
  }

  /** The count is the number of successful bookings, and the k-th successful
      booking has slot `k mod len(time_slots)`. */
  lemma {:induction false} RoundRobinSlots(ids: seq<int>, slots: seq<string>, book: Booker)
    requires slots != []
    ensures var run := RoundRobin(ids, slots, book);
            var ok := Successes(run.calls, book);
            && run.scheduled == |ok| <= |ids|
            && forall k :: 0 <= k < |ok| ==> ok[k].1 == slots[k % |slots|]
  {
    if ids != [] {
      var init := ids[..|ids| - 1];
      RoundRobinSlots(init, slots, book);
      var prev := RoundRobin(init, slots, book);
      var run := RoundRobin(ids, slots, book);
      assert run.calls[..|run.calls| - 1] == prev.calls;
    }
  }
}
