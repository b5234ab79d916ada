/** The matching agent (`src/agents/matching_agent.py`): the fallback scorer,
    the inclusive threshold, the recommendation override of the LLM-assisted
    path, batch matching with a stable score-descending sort, and the
    shortlist filter. */
module MatchingAgent {
  import opened Wrappers
  import opened Text
  import opened Records

  datatype SkillsMatch = SkillsMatch(score: real, exactMatches: seq<string>, missingSkills: seq<string>)

  /** The qualitative fields the generative-text client contributes. */
  datatype Analysis = Analysis(strengths: seq<string>, gaps: seq<string>, explanation: string, recommendation: string)

  /** A match result. `totalScore` and `isShortlisted` are `None` when the key
      is absent from the result dictionary; readers then use 0 and false. */
  datatype MatchResult = MatchResult(
    totalScore: Option<real>,
    skills: SkillsMatch,
    experienceScore: real,
    educationScore: real,
    jobTitle: string,
    candidateFilename: string,
    id: Option<int>,
    isShortlisted: Option<bool>,
    analysis: Option<Analysis>)

  /** An external scorer (`scorer.score_match`), not part of this model. */
  type Scorer = (JobRecord, CandidateRecord) -> MatchResult

  /** One call of the generative-text client on the match prompt built from the
      job and the candidate, followed by `json.loads`. `CallFailed` is an
      exception anywhere in the LLM branch; `NotJson` is a `JSONDecodeError`. */
  datatype AnalystReply = CallFailed | NotJson | Answer(analysis: Analysis)

  type Analyst = (JobRecord, CandidateRecord) -> AnalystReply

  /** The threshold `MatchingAgent.__init__` uses when none is given. */
  const DefaultThreshold: real := 0.8

  datatype Agent = Agent(scorer: Option<Scorer>, llm: Option<Analyst>, threshold: real)

  /** `result.get("total_score", 0)`. */
  function ScoreOf(m: MatchResult): real {
    m.totalScore.GetOr(0.0)
  }

  /** `result.get("is_shortlisted", False)`. */
  predicate Shortlisted(m: MatchResult) {
    m.isShortlisted == Some(true)
  }

  // ----- skills comparison of the fallback scorer -----

  /** `[s for s in xs if s in pool]` when `inPool`, `[s for s in xs if s not in pool]` otherwise. */
  function SelectBy(xs: seq<string>, pool: seq<string>, inPool: bool): (r: seq<string>)
    ensures |r| <= |xs|
    ensures forall s :: s in r ==> s in xs && ((s in pool) == inPool)
  {
    if xs == [] then []
    else (if (xs[0] in pool) == inPool then [xs[0]] else []) + SelectBy(xs[1..], pool, inPool)
  }

  /** The matched and the missing lists split the required list: every entry
      lands in exactly one of them. */
  lemma {:induction false} SelectPartition(xs: seq<string>, pool: seq<string>)
    ensures multiset(SelectBy(xs, pool, true)) + multiset(SelectBy(xs, pool, false)) == multiset(xs)
    ensures |SelectBy(xs, pool, true)| + |SelectBy(xs, pool, false)| == |xs|
  {
    if xs != [] {
      SelectPartition(xs[1..], pool);
      assert xs == [xs[0]] + xs[1..];
    }
  }

  /** Both lists keep the relative order of the required list. */
  lemma {:induction false} SelectAppend(a: seq<string>, b: seq<string>, pool: seq<string>, inPool: bool)
    ensures SelectBy(a + b, pool, inPool) == SelectBy(a, pool, inPool) + SelectBy(b, pool, inPool)
  {
    if a != [] {
      var h := if (a[0] in pool) == inPool then [a[0]] else [];
      var rest := SelectBy(a[1..], pool, inPool);
      var tail := SelectBy(b, pool, inPool);
      assert (a + b)[0] == a[0];
      assert (a + b)[1..] == a[1..] + b;
      SelectAppend(a[1..], b, pool, inPool);
      assert SelectBy(a + b, pool, inPool) == h + (rest + tail);
      assert SelectBy(a, pool, inPool) == h + rest;
      assert h + (rest + tail) == (h + rest) + tail;
    } else {
      assert a + b == b;
    }
  }

  /** The skills comparison of `_basic_match_scoring` on lower-cased lists: the
      required skills are split into those the candidate lists exactly and the
      rest, and the score is the matched fraction (0.0 with no requirement). */
  function CompareSkills(required: seq<string>, owned: seq<string>): (m: SkillsMatch)
    ensures forall s :: s in m.exactMatches ==> s in owned
    ensures forall s :: s in m.missingSkills ==> s !in owned
    ensures multiset(m.exactMatches) + multiset(m.missingSkills) == multiset(required)
    ensures required == [] ==> m.score == 0.0
    ensures required != [] ==> m.score == |m.exactMatches| as real / |required| as real
    ensures 0.0 <= m.score <= 1.0
  {
    var matched := SelectBy(required, owned, true);
    var missing := SelectBy(required, owned, false);
    SelectPartition(required, owned);
    SkillsMatch(SkillsScore(|matched|, |required|), matched, missing)
  }

  /** `_basic_match_scoring`: exact, case-insensitive skill matching and fixed
      0.5 experience and education scores, weighted 0.5/0.3/0.2. */
  function BasicMatchScoring(job: JobRecord, cand: CandidateRecord): (r: MatchResult)
    ensures r.skills == CompareSkills(LowerAll(job.requiredSkills), LowerAll(cand.skills))
    ensures r.experienceScore == 0.5 && r.educationScore == 0.5
    ensures r.totalScore == Some(0.5 * r.skills.score + 0.25)
    ensures 0.25 <= ScoreOf(r) <= 0.75
    ensures r.isShortlisted.None? && r.analysis.None? && r.id.None?
  {
    var skills := CompareSkills(LowerAll(job.requiredSkills), LowerAll(cand.skills));
    MatchResult(
      Some(0.5 * skills.score + 0.3 * 0.5 + 0.2 * 0.5),
      skills, 0.5, 0.5, "", "", None, None, None)
  }

  /** `len(matched) / len(required)`, or 0.0 for an empty requirement list. */
  function SkillsScore(matched: nat, required: nat): (r: real)
    requires matched <= required
    ensures 0.0 <= r <= 1.0
    ensures required == 0 ==> r == 0.0
    ensures required > 0 ==> r == matched as real / required as real
  {
    if required == 0 then 0.0
    else
      var q := matched as real / required as real;
      assert q * required as real == matched as real <= required as real;
      assert (1.0 - q) * required as real >= 0.0;
      q
  }

  // ----- single match -----

  /** The quantitative result: the external scorer when present, else the fallback. */
  function BaseScore(agent: Agent, job: JobRecord, cand: CandidateRecord): MatchResult {
    if agent.scorer.Some? then agent.scorer.value(job, cand) else BasicMatchScoring(job, cand)
  }

  /** Adds the identifiers stored with the result. */
  function Identify(m: MatchResult, job: JobRecord, cand: CandidateRecord): MatchResult {
    m.(jobTitle := job.title.GetOr(""), candidateFilename := cand.cvFilename)
  }

  /** `match_candidate_to_job`: the scores come from `BaseScore` unchanged and
      the flag is the inclusive threshold test on the total score. */
  function MatchCandidateToJob(agent: Agent, job: JobRecord, cand: CandidateRecord): (r: MatchResult)
    ensures r.isShortlisted == Some(ScoreOf(r) >= agent.threshold)
    ensures r.totalScore == BaseScore(agent, job, cand).totalScore
    ensures r.skills == BaseScore(agent, job, cand).skills
    ensures r.analysis == BaseScore(agent, job, cand).analysis
    ensures r.jobTitle == job.title.GetOr("") && r.candidateFilename == cand.cvFilename
  {
    var m := Identify(BaseScore(agent, job, cand), job, cand);
    m.(isShortlisted := Some(ScoreOf(m) >= agent.threshold))
  }

  /** With the fallback scorer and the default threshold nobody is shortlisted:
      the fallback total never exceeds 0.75. */
  lemma DefaultAgentNeverShortlists(agent: Agent, job: JobRecord, cand: CandidateRecord)
    requires agent.scorer.None? && agent.threshold == DefaultThreshold
    ensures !Shortlisted(MatchCandidateToJob(agent, job, cand))
  {
  }

  /** The recommendation override: "Highly Recommend" and "Recommend" force the
      flag on, "Not Recommended" forces it off, anything else keeps `flag`. */
  function Override(recommendation: string, flag: Option<bool>): Option<bool> {
    if recommendation == "Highly Recommend" || recommendation == "Recommend" then Some(true)
    else if recommendation == "Not Recommended" then Some(false)
    else flag
  }

  /** `match_candidate_to_job_with_llm` as written: without a client, or when the
      LLM branch raises, it is `match_candidate_to_job`; otherwise the flag is
      whatever the scorer set, overridden only by a recognised recommendation.
      The threshold is never applied on this path. */
  function MatchWithLlm(agent: Agent, job: JobRecord, cand: CandidateRecord): (r: MatchResult)
    ensures agent.llm.None? ==> r == MatchCandidateToJob(agent, job, cand)
    ensures r.totalScore == BaseScore(agent, job, cand).totalScore
    ensures r.jobTitle == job.title.GetOr("") && r.candidateFilename == cand.cvFilename
    ensures agent.llm.Some? ==>
              match agent.llm.value(job, cand)
              case CallFailed => r == MatchCandidateToJob(agent, job, cand)
              case NotJson => r.isShortlisted == BaseScore(agent, job, cand).isShortlisted
              case Answer(a) =>
                && r.analysis == Some(a)
                && (a.recommendation in {"Highly Recommend", "Recommend"} ==> r.isShortlisted == Some(true))
                && (a.recommendation == "Not Recommended" ==> r.isShortlisted == Some(false))
                && (a.recommendation !in {"Highly Recommend", "Recommend", "Not Recommended"} ==>
                      r.isShortlisted == BaseScore(agent, job, cand).isShortlisted)
  {
    if agent.llm.None? then MatchCandidateToJob(agent, job, cand)
    else
      var base := BaseScore(agent, job, cand);
      match agent.llm.value(job, cand)
      case CallFailed => MatchCandidateToJob(agent, job, cand)
      case NotJson => Identify(base, job, cand)
      case Answer(a) =>
        Identify(base.(analysis := Some(a), isShortlisted := Override(a.recommendation, base.isShortlisted)), job, cand)
  }

  /** With the fallback scorer, a reply that is not JSON or whose recommendation
      is not one of the three recognised ones leaves the flag absent. */
  lemma LlmPathLeavesFlagAbsent(agent: Agent, job: JobRecord, cand: CandidateRecord)
    requires agent.scorer.None? && agent.llm.Some?
    requires agent.llm.value(job, cand).NotJson?
             || (agent.llm.value(job, cand).Answer?
                 && agent.llm.value(job, cand).analysis.recommendation !in {"Highly Recommend", "Recommend", "Not Recommended"})
    ensures MatchWithLlm(agent, job, cand).isShortlisted.None?
    ensures !Shortlisted(MatchWithLlm(agent, job, cand))
  {
  }

  /** The LLM path as its comments intend it: the threshold decision is made
      first, and a recognised recommendation then overrides it. */
  function MatchWithLlmCorrected(agent: Agent, job: JobRecord, cand: CandidateRecord): (r: MatchResult)
    ensures r.totalScore == BaseScore(agent, job, cand).totalScore
    ensures r.jobTitle == job.title.GetOr("") && r.candidateFilename == cand.cvFilename
    ensures r.isShortlisted.Some?
    ensures (agent.llm.None? || !agent.llm.value(job, cand).Answer?
             || agent.llm.value(job, cand).analysis.recommendation !in {"Highly Recommend", "Recommend", "Not Recommended"})
            ==> r.isShortlisted == Some(ScoreOf(r) >= agent.threshold)
    ensures agent.llm.Some? && agent.llm.value(job, cand).Answer? ==>
              var rec := agent.llm.value(job, cand).analysis.recommendation;
              && (rec in {"Highly Recommend", "Recommend"} ==> r.isShortlisted == Some(true))
              && (rec == "Not Recommended" ==> r.isShortlisted == Some(false))
  {
    var decided := MatchCandidateToJob(agent, job, cand);
    if agent.llm.None? then decided
    else
      match agent.llm.value(job, cand)
      case CallFailed => decided
      case NotJson => decided
      case Answer(a) => decided.(analysis := Some(a), isShortlisted := Override(a.recommendation, decided.isShortlisted))
  }

  /** A candidate whose fallback score passes the threshold and whom the LLM
      rates "Consider" is left off the shortlist as written, and kept on it by
      the corrected path. */
  lemma ConsiderLosesThresholdDecision()
    ensures var agent := Agent(None, Some((j: JobRecord, c: CandidateRecord) => Answer(Analysis([], [], "", "Consider"))), 0.7);
            var job := JobRecord(Some("Data Scientist"), None, ["Python"], [], "", "", []);
            var cand := CandidateRecord("cv.pdf", [], ["python"], [], [], "");
            && ScoreOf(MatchWithLlm(agent, job, cand)) == 0.75
            && ScoreOf(MatchWithLlm(agent, job, cand)) >= agent.threshold
            && GetShortlisted([MatchWithLlm(agent, job, cand)]) == []
            && GetShortlisted([MatchWithLlmCorrected(agent, job, cand)]) == [MatchWithLlmCorrected(agent, job, cand)]
  {
    var job := JobRecord(Some("Data Scientist"), None, ["Python"], [], "", "", []);
    var cand := CandidateRecord("cv.pdf", [], ["python"], [], [], "");
    assert Lower("Python") == "python" by {
      assert LowerChar('P') == 'p';
    }
    assert Lower("python") == "python";
    assert LowerAll(job.requiredSkills) == ["python"];
    assert LowerAll(cand.skills) == ["python"];
    assert SelectBy(["python"], ["python"], true) == ["python"];
  }

  // ----- batch matching -----

  /** The per-candidate match of the batch: the LLM path as written when a
      client is configured, the threshold path otherwise. */
  function MatchOne(agent: Agent, job: JobRecord, cand: CandidateRecord): MatchResult {
    if agent.llm.Some? then MatchWithLlm(agent, job, cand) else MatchCandidateToJob(agent, job, cand)
  }

  function MatchAll(agent: Agent, job: JobRecord, cands: seq<CandidateRecord>): (r: seq<MatchResult>)
    ensures |r| == |cands|
    ensures forall i :: 0 <= i < |cands| ==> r[i] == MatchOne(agent, job, cands[i])
  {
    seq(|cands|, i requires 0 <= i < |cands| => MatchOne(agent, job, cands[i]))
  }

  ghost predicate SortedByScore(s: seq<MatchResult>) {
    forall i, j :: 0 <= i < j < |s| ==> ScoreOf(s[i]) >= ScoreOf(s[j])
  }

  /** The results of `s` whose score is `k`, in order. */
  function WithScore(s: seq<MatchResult>, k: real): seq<MatchResult> {
    if s == [] then [] else (if ScoreOf(s[0]) == k then [s[0]] else []) + WithScore(s[1..], k)
  }

  /** Places `x` after every element scoring strictly more and before the rest. */
  function Insert(x: MatchResult, s: seq<MatchResult>): seq<MatchResult> {
    if s == [] then [x]
    else if ScoreOf(x) >= ScoreOf(s[0]) then [x] + s
    else [s[0]] + Insert(x, s[1..])
  }

  /** `results.sort(key=lambda x: x.get("total_score", 0), reverse=True)`:
      Python's sort is stable, also with `reverse=True`. */
  function SortByScore(s: seq<MatchResult>): seq<MatchResult> {
    if s == [] then [] else Insert(s[0], SortByScore(s[1..]))
  }

  lemma {:induction false} SortedTail(s: seq<MatchResult>)
    requires s != [] && SortedByScore(s)
    ensures SortedByScore(s[1..])
    ensures forall y :: y in s[1..] ==> ScoreOf(s[0]) >= ScoreOf(y)
  {
    forall i, j | 0 <= i < j < |s[1..]| ensures ScoreOf(s[1..][i]) >= ScoreOf(s[1..][j]) {
      assert s[1..][i] == s[i + 1] && s[1..][j] == s[j + 1];
    }
    forall y | y in s[1..] ensures ScoreOf(s[0]) >= ScoreOf(y) {
      var m :| 0 <= m < |s[1..]| && s[1..][m] == y;
      assert s[m + 1] == y;
    }
  }

  /** A head that scores at least every element of a sorted tail keeps it sorted. */
  lemma SortedCons(y: MatchResult, t: seq<MatchResult>)
    requires SortedByScore(t)
    requires forall z :: z in t ==> ScoreOf(y) >= ScoreOf(z)
    ensures SortedByScore([y] + t)
  {
    forall i, j | 0 <= i < j < |[y] + t| ensures ScoreOf(([y] + t)[i]) >= ScoreOf(([y] + t)[j]) {
      assert ([y] + t)[j] == t[j - 1] && t[j - 1] in t;
      if i > 0 {
        assert ([y] + t)[i] == t[i - 1];
      }
    }
  }

  lemma {:induction false} InsertPermutes(x: MatchResult, s: seq<MatchResult>)
    ensures multiset(Insert(x, s)) == multiset(s) + multiset{x}
  {
    if s != [] && ScoreOf(x) < ScoreOf(s[0]) {
      InsertPermutes(x, s[1..]);
      assert s == [s[0]] + s[1..];
    }
  }

  lemma {:induction false} InsertSorted(x: MatchResult, s: seq<MatchResult>)
    requires SortedByScore(s)
    ensures SortedByScore(Insert(x, s))
  {
    if s == [] {
    } else if ScoreOf(x) >= ScoreOf(s[0]) {
      SortedTail(s);
      assert s == [s[0]] + s[1..];
      forall z | z in s ensures ScoreOf(x) >= ScoreOf(z) {
        if z != s[0] {
          assert z in s[1..];
        }
      }
      SortedCons(x, s);
    } else {
      SortedTail(s);
      var t := Insert(x, s[1..]);
      InsertSorted(x, s[1..]);
      InsertPermutes(x, s[1..]);
      forall z | z in t ensures ScoreOf(s[0]) >= ScoreOf(z) {
        assert z in multiset(t);
        assert z == x || z in multiset(s[1..]);
      }
      SortedCons(s[0], t);
    }
  }

  lemma {:induction false} InsertStable(x: MatchResult, s: seq<MatchResult>, k: real)
    ensures WithScore(Insert(x, s), k) == (if ScoreOf(x) == k then [x] else []) + WithScore(s, k)
  {
    if s == [] {
      assert WithScore([x], k) == (if ScoreOf(x) == k then [x] else []) + WithScore([], k);
    } else if ScoreOf(x) >= ScoreOf(s[0]) {
      assert ([x] + s)[1..] == s;
    } else {
      var t := Insert(x, s[1..]);
      InsertStable(x, s[1..], k);
      assert ([s[0]] + t)[1..] == t;
      var ws := WithScore(s[1..], k);
      if ScoreOf(s[0]) == k {
        assert WithScore(t, k) == ws;
        assert WithScore(Insert(x, s), k) == [s[0]] + ws;
      } else {
        assert WithScore(Insert(x, s), k) == WithScore(t, k);
        assert WithScore(s, k) == ws;
      }
    }
  }

  /** The sort orders by score, descending, permutes its input, and keeps the
      input order among equal scores. */
  lemma {:induction false} SortFacts(s: seq<MatchResult>)
    ensures SortedByScore(SortByScore(s))
    ensures multiset(SortByScore(s)) == multiset(s)
    ensures forall k :: WithScore(SortByScore(s), k) == WithScore(s, k)
  {
    if s != [] {
      SortFacts(s[1..]);
      InsertSorted(s[0], SortByScore(s[1..]));
      InsertPermutes(s[0], SortByScore(s[1..]));
      assert s == [s[0]] + s[1..];
      forall k ensures WithScore(SortByScore(s), k) == WithScore(s, k) {
        InsertStable(s[0], SortByScore(s[1..]), k);
        assert WithScore(s, k) == (if ScoreOf(s[0]) == k then [s[0]] else []) + WithScore(s[1..], k);
      }
    }
  }

  /** `batch_match_candidates`: every candidate is matched, in input order, and
      the results are then sorted by score, descending, stably. */
  method BatchMatch(agent: Agent, job: JobRecord, cands: seq<CandidateRecord>) returns (results: seq<MatchResult>)
    ensures results == SortByScore(MatchAll(agent, job, cands))
    ensures SortedByScore(results)
    ensures multiset(results) == multiset(MatchAll(agent, job, cands))
    ensures forall k :: WithScore(results, k) == WithScore(MatchAll(agent, job, cands), k)
  {
    results := [];
    for i := 0 to |cands|
      invariant results == MatchAll(agent, job, cands[..i])
    {
      var m: MatchResult;
      if agent.llm.Some? {
        m := MatchWithLlm(agent, job, cands[i]);
      } else {
        m := MatchCandidateToJob(agent, job, cands[i]);
      }
      results := results + [m];
    }
    assert cands[..|cands|] == cands;
    SortFacts(results);
    results := SortByScore(results);
  }

  /** The batch as intended: the corrected LLM path per candidate. */
  function MatchOneCorrected(agent: Agent, job: JobRecord, cand: CandidateRecord): MatchResult {
    if agent.llm.Some? then MatchWithLlmCorrected(agent, job, cand) else MatchCandidateToJob(agent, job, cand)
  }

  function MatchAllCorrected(agent: Agent, job: JobRecord, cands: seq<CandidateRecord>): (r: seq<MatchResult>)
    ensures |r| == |cands|
    ensures forall i :: 0 <= i < |cands| ==> r[i] == MatchOneCorrected(agent, job, cands[i])
  {
    seq(|cands|, i requires 0 <= i < |cands| => MatchOneCorrected(agent, job, cands[i]))
  }

  /** `batch_match_candidates` with the corrected LLM path: the same stable,
      score-descending sort over the intended per-candidate results. */
  method BatchMatchCorrected(agent: Agent, job: JobRecord, cands: seq<CandidateRecord>) returns (results: seq<MatchResult>)
    ensures results == SortByScore(MatchAllCorrected(agent, job, cands))
    ensures SortedByScore(results)
    ensures multiset(results) == multiset(MatchAllCorrected(agent, job, cands))
    ensures forall k :: WithScore(results, k) == WithScore(MatchAllCorrected(agent, job, cands), k)
  {
    results := [];
    for i := 0 to |cands|
      invariant results == MatchAllCorrected(agent, job, cands[..i])
    {
      var m: MatchResult;
      if agent.llm.Some? {
        m := MatchWithLlmCorrected(agent, job, cands[i]);
      } else {
        m := MatchCandidateToJob(agent, job, cands[i]);
      }
      results := results + [m];
    }
    assert cands[..|cands|] == cands;
    SortFacts(results);
    results := SortByScore(results);
  }

  // ----- shortlist -----

  /** `get_shortlisted_candidates`: exactly the results whose flag is true. */
  function GetShortlisted(results: seq<MatchResult>): (r: seq<MatchResult>)
    ensures forall m :: m in r <==> m in results && Shortlisted(m)
    ensures |r| <= |results|
  {
    if results == [] then []
    else (if Shortlisted(results[0]) then [results[0]] else []) + GetShortlisted(results[1..])
  }

  /** The shortlist keeps the relative order of the results. */
  lemma {:induction false} ShortlistAppend(a: seq<MatchResult>, b: seq<MatchResult>)
    ensures GetShortlisted(a + b) == GetShortlisted(a) + GetShortlisted(b)
  {
    if a != [] {
      assert (a + b)[1..] == a[1..] + b;
      ShortlistAppend(a[1..], b);
    } else {
      assert a + b == b;
    }
  }

  /** Filtering a score-sorted list keeps it score-sorted. */
  lemma {:induction false} ShortlistStaysSorted(s: seq<MatchResult>)
    requires SortedByScore(s)
    ensures SortedByScore(GetShortlisted(s))
  {
    if s != [] {
      SortedTail(s);
      ShortlistStaysSorted(s[1..]);
      var t := GetShortlisted(s[1..]);
      if Shortlisted(s[0]) {
        SortedCons(s[0], t);
      }
    }
  }

  /** The finding seen through the batch: with the input of
      `ConsiderLosesThresholdDecision`, the batch as written shortlists nobody,
      the corrected batch shortlists the candidate. */
  lemma BatchLosesThresholdDecision()
    ensures var agent := Agent(None, Some((j: JobRecord, c: CandidateRecord) => Answer(Analysis([], [], "", "Consider"))), 0.7);
            var job := JobRecord(Some("Data Scientist"), None, ["Python"], [], "", "", []);
            var cand := CandidateRecord("cv.pdf", [], ["python"], [], [], "");
            && GetShortlisted(SortByScore(MatchAll(agent, job, [cand]))) == []
            && |GetShortlisted(SortByScore(MatchAllCorrected(agent, job, [cand])))| == 1
  {
    var agent := Agent(None, Some((j: JobRecord, c: CandidateRecord) => Answer(Analysis([], [], "", "Consider"))), 0.7);
    var job := JobRecord(Some("Data Scientist"), None, ["Python"], [], "", "", []);
    var cand := CandidateRecord("cv.pdf", [], ["python"], [], [], "");
    ConsiderLosesThresholdDecision();
    var m := MatchWithLlm(agent, job, cand);
    var c := MatchWithLlmCorrected(agent, job, cand);
    assert MatchAll(agent, job, [cand]) == [m];
    assert MatchAllCorrected(agent, job, [cand]) == [c];
    assert SortByScore([m]) == [m];
    assert SortByScore([c]) == [c];
  }
}
