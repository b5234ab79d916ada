/** The records that flow through the pipeline, and the two collaborators whose
    internals are outside the model: the regular-expression engine and the
    generative-text client.

    The source passes dictionaries around; here each kind of dictionary is a
    datatype whose fields are the keys the pipeline reads. A key whose absence
    the readers treat differently from an empty value is an `Option`; a list or
    string key that readers default to `[]` or `""` is stored as that default. */
module Records {
  import opened Wrappers

  /** An insertion-ordered `Dict[str, str]` (contact information). */
  type Dict = seq<(string, string)>

  /** `d.get(key, default)`. */
  function Get(d: Dict, key: string, default: string): string {
    if d == [] then default
    else if d[0].0 == key then d[0].1
    else Get(d[1..], key, default)
  }

  function Keys(d: Dict): seq<string> {
    seq(|d|, i requires 0 <= i < |d| => d[i].0)
  }

  datatype Education = Education(degree: string, institution: string, year: string)

  datatype Experience = Experience(title: string, company: string, duration: string, description: string)

  /** A job record. `title` and `description` are `None` when the producing
      parser did not set that key. */
  datatype JobRecord = JobRecord(
    title: Option<string>,
    description: Option<string>,
    requiredSkills: seq<string>,
    preferredSkills: seq<string>,
    requiredExperience: string,
    requiredEducation: string,
    responsibilities: seq<string>)

  /** A candidate record as produced by CV processing. */
  datatype CandidateRecord = CandidateRecord(
    cvFilename: string,
    contactInfo: Dict,
    skills: seq<string>,
    education: seq<Education>,
    experience: seq<Experience>,
    fullText: string)

  /** A compiled pattern: its source text and whether `re.DOTALL` is passed. */
  datatype Pattern = Pattern(source: string, dotAll: bool)

  /** The groups of one match: index 0 is the whole match, index k is group k. */
  type Groups = seq<string>

  /** `m.group(k)`; a group the engine does not report reads as "". */
  function Group(g: Groups, k: nat): string {
    if k < |g| then g[k] else ""
  }

  /** The regular-expression engine, left uninterpreted:
      `search(p, text)` is `re.search` (None when nothing matches) and
      `findall(p, text)` lists every non-overlapping match in order. Python's
      `findall` returns group 1 for a one-group pattern, the whole match for a
      pattern without groups and a tuple of the groups otherwise; the callers
      below pick the same group out of `Groups`. */
  datatype Regex = Regex(
    search: (Pattern, string) -> Option<Groups>,
    findall: (Pattern, string) -> seq<Groups>)

  /** The outcome of one call to the generative-text client followed by
      `json.loads`: the call raised or the text was not valid JSON (`Failed`),
      or it parsed to `value`. */
  datatype Reply<T> = Failed | Parsed(value: T)

  /** The first pattern of `patterns` that `search` matches, with its match:
      the "first pattern wins" loops of the source. */
  function FirstSearch(re: Regex, patterns: seq<Pattern>, text: string): (r: Option<(nat, Groups)>)
    ensures r.None? <==> forall i :: 0 <= i < |patterns| ==> re.search(patterns[i], text).None?
    ensures r.Some? ==>
              && r.value.0 < |patterns|
              && re.search(patterns[r.value.0], text) == Some(r.value.1)
              && forall i :: 0 <= i < r.value.0 ==> re.search(patterns[i], text).None?
  {
    if patterns == [] then None
    else match re.search(patterns[0], text)
      case Some(g) => Some((0, g))
      case None =>
        match FirstSearch(re, patterns[1..], text)
        case None => None
        case Some(p) => Some((p.0 + 1, p.1))
  }
}
