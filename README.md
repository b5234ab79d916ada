# Matchwise screening pipeline — a verified model

Matchwise screens job candidates. It parses job descriptions and CVs into records. It scores every candidate against a job and shortlists by a threshold, which a language model's recommendation can override. It orders the results and schedules interviews on business days, writing an invitation email for each.

This project models the deterministic decision logic of that pipeline in Dafny and proves what the code promises about it. The modules follow the source files:

| module | file |
|---|---|
| `MatchingAgent` (`matching_agent.dfy`) | `src/agents/matching_agent.py` |
| `SchedulerAgent` (`scheduler_agent.dfy`) | `src/agents/scheduler_agent.py` |
| `MatchwiseApp` (`matchwise_app.dfy`) | the agent classes of `src/matchwise_app.py` and the slot round-robin of its scheduling page |
| `JobDescriptionAgent` (`job_description_agent.dfy`) | `src/agents/job_description_agent.py` |
| `CvProcessingAgent` (`cv_processing_agent.dfy`) | `src/agents/cv_processing_agent.py` |
| `TextProcessor` (`text_processor.dfy`) | `src/utils/text_processor.py` |

Three shared modules support them:
- `Wrappers` holds `Option`, used for dictionary keys that may be absent and for collaborators that may not be configured.
- `Text` holds the Python string operations the code uses: `lower`, `strip`, `split`, `join`, `title`, slicing, and digit rendering.
- `Records` holds the job and candidate dictionaries as datatypes, ordered string dictionaries, the regular-expression interface and the reply of a language-model call.

How the model treats the outside world:
- **Regular expressions** are an abstract `Regex` value with `search` and `findall` functions. The pattern source text is kept, and everything the code does with the matches is modelled. Two expressions are written out in full because the code depends on their exact behaviour: the `re.split(r',|\sand\s|\sor\s', …)` of `process_jd` and the `re.sub` that removes cue phrases from a bullet item.
- **Language-model calls and `json.loads`** take the parsed reply as a parameter. A reply is either `Failed` (an exception or invalid JSON) or `Parsed(value)`. The matching agent's analyst reply also tells a call failure apart from a JSON error, because the code handles those two differently.
- **The scorer, the e-mail writer and sender, the PDF parser, and the booking call** of the scheduling page are function parameters. So are `datetime.date.today()` and `strftime`.
- **Dates** are day ordinals. `Weekday(d) = (d + 6) % 7` gives Monday = 0, as Python's `date.weekday()` does on proleptic ordinals.
- **Scores** are exact `real`s.
- **Fixed text.** Each agent value carries its template text in a `Letter` or `InviteLetter` field. `SchedulerAgent.NewScheduler` and `MatchwiseApp.NewInterviewAgent` fill that field with the text hard-coded in the source. The lemmas hold for any text with the stated framing.

Where a comment and the code disagree, the model follows the code. The LLM-assisted matching path is the one such case where the code is evidently wrong: the comment at src/agents/matching_agent.py:139 says that a "Consider" answer keeps the threshold-based decision, but no threshold decision was made on that path. The path is modelled twice, once as written and once as intended (see "## Findings"). `MatchingAgent.BatchMatch` runs the path as written, as `batch_match_candidates` does; `MatchingAgent.BatchMatchCorrected` is the same batch over the intended path.

## Model

| member | source | states |
|---|---|---|
| `MatchingAgent.CompareSkills` | src/agents/matching_agent.py:307-317 | The exact matches are required skills the candidate owns and the missing skills are required skills the candidate lacks. Together they are a permutation of the required list. The score is matched/required, 0.0 when nothing is required, and lies in [0, 1]. |
| `MatchingAgent.SelectBy` | src/agents/matching_agent.py:310-317 | Each comprehension keeps only list members that fall on its side of the pool test, and never more members than the list has. |
| `MatchingAgent.SelectPartition` | src/agents/matching_agent.py:310-317 | The matched and missing lists split the required list: their multisets add up to it and their lengths to its length. |
| `MatchingAgent.SelectAppend` | src/agents/matching_agent.py:310-317 | Filtering a concatenation concatenates the filtered parts, so the order of the input is kept. |
| `MatchingAgent.BasicMatchScoring` | src/agents/matching_agent.py:298-343 | The fallback scorer compares the lowercased skills and fixes experience and education at 0.5. Its total is 0.5·skills + 0.25, always within [0.25, 0.75]. It sets no flag, analysis or id. |
| `MatchingAgent.SkillsScore` | src/agents/matching_agent.py:311 | matched/required lies in [0, 1] and is 0.0 when nothing is required. |
| `MatchingAgent.MatchCandidateToJob` | src/agents/matching_agent.py:33-60 | The flag is the inclusive test `total_score >= threshold`, where a missing score reads as 0. Scores, skills and analysis come from the scorer, or from the fallback when there is no scorer, unchanged. The job title and CV file name are stamped on the result. |
| `MatchingAgent.DefaultAgentNeverShortlists` | src/agents/matching_agent.py:20 | With the fallback scorer and the default threshold 0.8, no candidate is ever shortlisted. |
| `MatchingAgent.MatchWithLlm` | src/agents/matching_agent.py:62-153 | As written: without a client, or when the LLM branch raises, the result is `match_candidate_to_job`'s. A JSON error keeps the scorer's flag. An answer stores the analysis. "Highly Recommend" and "Recommend" force the flag on and "Not Recommended" forces it off; any other recommendation keeps the scorer's flag. The threshold is never applied on this path. |
| `MatchingAgent.LlmPathLeavesFlagAbsent` | src/agents/matching_agent.py:79-82 | With the fallback scorer, a non-JSON reply or an unrecognised recommendation leaves the flag absent, so the candidate counts as not shortlisted. |
| `MatchingAgent.ConsiderLosesThresholdDecision` | src/agents/matching_agent.py:133-139 | A concrete input: a candidate scoring 0.75 against a threshold of 0.7 and rated "Consider" is dropped from the shortlist as written and kept by the corrected path. |
| `MatchingAgent.MatchWithLlmCorrected` | src/agents/matching_agent.py:133-139 | The corrected path always sets the flag. Without a recognised recommendation the flag is the threshold test. "Highly Recommend" and "Recommend" force it on and "Not Recommended" forces it off. |
| `MatchingAgent.MatchAll` | src/agents/matching_agent.py:166-175 | The loop produces one result per candidate, in input order: the LLM path as written when a client is configured, the threshold path otherwise. |
| `MatchingAgent.MatchAllCorrected` | src/agents/matching_agent.py:166-175 | The same loop over the intended LLM path: one corrected result per candidate, in input order. |
| `MatchingAgent.SortedTail` | src/agents/matching_agent.py:178 | A score-descending list stays sorted without its head, and its head scores at least as high as every later element. |
| `MatchingAgent.SortedCons` | src/agents/matching_agent.py:178 | Putting an element that scores at least as high as every element in front of a sorted list keeps it sorted. |
| `MatchingAgent.InsertPermutes` | src/agents/matching_agent.py:178 | Inserting adds exactly one element to the multiset. |
| `MatchingAgent.InsertSorted` | src/agents/matching_agent.py:178 | Inserting into a score-descending list keeps it score-descending. |
| `MatchingAgent.InsertStable` | src/agents/matching_agent.py:178 | Inserting keeps the relative order of elements with equal scores. The inserted element, which comes earlier in the input, goes before the elements of the list that share its score. |
| `MatchingAgent.SortFacts` | src/agents/matching_agent.py:178 | The sort returns a score-descending permutation of its input. For every score, the elements with that score keep their input order, as a stable sort with `reverse=True` does. |
| `MatchingAgent.BatchMatch` | src/agents/matching_agent.py:155-180 | The batch is the stable score-descending sort of the per-candidate results of the code as written. It is sorted, a permutation of those results, and keeps ties in input order. |
| `MatchingAgent.BatchMatchCorrected` | src/agents/matching_agent.py:155-180 | The same stable score-descending sort over the intended per-candidate results: sorted, a permutation of them, ties in input order. |
| `MatchingAgent.BatchLosesThresholdDecision` | src/agents/matching_agent.py:170-171 | On the counterexample input, the batch as written shortlists nobody and the corrected batch shortlists the one candidate. |
| `MatchingAgent.GetShortlisted` | src/agents/matching_agent.py:182-192 | Keeps exactly the results whose flag is true; a missing flag counts as false. |
| `MatchingAgent.ShortlistAppend` | src/agents/matching_agent.py:192 | Filtering distributes over concatenation, so the filter keeps the input order. |
| `MatchingAgent.ShortlistStaysSorted` | src/agents/matching_agent.py:192 | The shortlist of a score-descending list is score-descending. |
| `SchedulerAgent.WeekdayNext` | src/agents/scheduler_agent.py:264-266 | The weekday advances by one per day and wraps from Sunday to Monday. |
| `SchedulerAgent.NextBusinessDateIsNext` | src/agents/scheduler_agent.py:263-267 | The next business day is one to three days after d and is a weekday, with no weekday in between. |
| `SchedulerAgent.CountSplit` | src/agents/scheduler_agent.py:263-267 | The weekday count over (d, e] splits at any day in between. |
| `SchedulerAgent.AddBusinessDaysCounts` | src/agents/scheduler_agent.py:249-269 | Adding n business days gives d when n = 0. For n > 0 the result is strictly later and a weekday, with exactly n weekdays in (d, result]. |
| `SchedulerAgent.SkipWeekendDay` | src/agents/scheduler_agent.py:264-267 | Stepping onto a weekend day does not count, so the target date is unchanged. |
| `SchedulerAgent.AddBusinessDaysCompose` | src/agents/scheduler_agent.py:249-269 | Adding a business days and then b business days equals adding a + b. |
| `SchedulerAgent.AddBusinessDaysStrict` | src/agents/scheduler_agent.py:249-269 | More business days give a strictly later date. |
| `SchedulerAgent.NextBusinessDay` | src/agents/scheduler_agent.py:249-269 | The day-by-day loop computes the specification: `days_to_add` business days after the start, and the start itself when `days_to_add <= 0`. |
| `SchedulerAgent.NewScheduler` | src/agents/scheduler_agent.py:22-40 | The scheduler keeps the given writer and sender, and its template text starts and ends with a non-space character. |
| `SchedulerAgent.OurCompanyLetterFramed` | src/agents/scheduler_agent.py:218-245 | The hard-coded template starts at "Subject:" and ends at the phone number, with no whitespace at either end. |
| `SchedulerAgent.OrDefault` | src/agents/scheduler_agent.py:73-74 | An empty slot or format list, or one not given, falls back to the defaults; a non-empty one is kept. |
| `SchedulerAgent.Bullets` | src/agents/scheduler_agent.py:173 | Each slot becomes its own "- slot" line. |
| `SchedulerAgent.SlotsTextLines` | src/agents/scheduler_agent.py:173 | The slots text splits on line breaks back into exactly the "- slot" lines, when no slot holds a line break. |
| `SchedulerAgent.TemplateStripped` | src/agents/scheduler_agent.py:218-247 | `.strip()` removes exactly the template's leading line break and trailing indentation, whatever is substituted. |
| `SchedulerAgent.TemplateMentions` | src/agents/scheduler_agent.py:166-174 | The template email names the candidate, the job title and the date, and lists every slot and every format. |
| `SchedulerAgent.GenerateEmailStripped` | src/agents/scheduler_agent.py:149-247 | The email is the stripped client text when a client answers, and otherwise the stripped template filled in with the name (default "Candidate") and the title (default "position"). Either way it neither starts nor ends with whitespace. |
| `SchedulerAgent.ScheduleFacts` | src/agents/scheduler_agent.py:42-110 | A match not shortlisted (flag false or missing) is rejected with its reason and score, and has no date or email. A shortlisted one is pending. Its date is the given one, or five business days after today; its slots and formats are the given ones or the defaults, never empty. Its email counts as sent exactly when a sender exists, the candidate has an address and sending succeeds. |
| `SchedulerAgent.SendInvitation` | src/agents/scheduler_agent.py:95-108 | The email counts as sent exactly when a sender is configured, the recipient address is non-empty and the send does not fail. |
| `SchedulerAgent.ScheduleInterview` | src/agents/scheduler_agent.py:42-110 | The step-by-step method builds exactly the result `ScheduleFacts` describes. |
| `SchedulerAgent.Present` | src/agents/scheduler_agent.py:133-136 | Keeps exactly the matches whose candidate is known, in order. |
| `SchedulerAgent.BatchPlanShape` | src/agents/scheduler_agent.py:133-145 | The plan has one call per match with a known candidate. The k-th call is for the k-th such match and its candidate, k business days after the start date. |
| `SchedulerAgent.BatchPlanChosen` | src/agents/scheduler_agent.py:128-136 | One call is planned per shortlisted match whose candidate is known, and only for those. |
| `SchedulerAgent.BatchPlanSlot` | src/agents/scheduler_agent.py:131-145 | The k-th planned call is for the k-th chosen match, on the day 5 + k business days after today. |
| `SchedulerAgent.BatchPlanFacts` | src/agents/scheduler_agent.py:128-145 | Every planned call is for a shortlisted match, at 5 + k business days, and the dates strictly increase. |
| `SchedulerAgent.PlanDatesIncrease` | src/agents/scheduler_agent.py:145 | Calls dated 5 + k business days after today come in strictly increasing order. |
| `SchedulerAgent.CallPending` | src/agents/scheduler_agent.py:139-140 | A planned call for a shortlisted match is pending on its slot's date, for that match and candidate. |
| `SchedulerAgent.RunPlan` | src/agents/scheduler_agent.py:133-143 | The planned calls give one interview each. |
| `SchedulerAgent.BatchTurn` | src/agents/scheduler_agent.py:134-145 | One loop turn keeps the plan invariant. A known candidate is scheduled and the date moves on one business day; an unknown one is skipped without using up a date. |
| `SchedulerAgent.BatchSchedule` | src/agents/scheduler_agent.py:112-147 | The loop produces exactly the interviews of the plan, in order. |
| `SchedulerAgent.BatchScheduleFacts` | src/agents/scheduler_agent.py:112-147 | There is one pending interview per shortlisted match with a known candidate, in input order. The k-th is for that match's id and candidate, on the day 5 + k business days after today. |
| `MatchwiseApp.SplitFrom` | src/matchwise_app.py:123 | The split of a span always has at least one token. |
| `MatchwiseApp.SplitSkillsNoComma` | src/matchwise_app.py:123 | No token of the split holds a comma. |
| `MatchwiseApp.SplitSkillsWithoutSpace` | src/matchwise_app.py:123 | On a span without whitespace, only commas separate: the split equals `str.split(',')`. |
| `MatchwiseApp.KeptSound` | src/matchwise_app.py:124-126 | Every kept skill is a stripped token longer than two characters. |
| `MatchwiseApp.KeptComplete` | src/matchwise_app.py:124-126 | Every stripped token longer than two characters is kept. |
| `MatchwiseApp.HarvestSound` | src/matchwise_app.py:121-126 | A harvested skill comes from the token list of one match. |
| `MatchwiseApp.HarvestComplete` | src/matchwise_app.py:121-126 | Every skill kept from a match's token list is harvested. |
| `MatchwiseApp.HarvestMembers` | src/matchwise_app.py:118-126 | The harvested skills are exactly the stripped tokens, longer than two characters, of the group-1 spans of the skill pattern's matches. |
| `MatchwiseApp.NonEmpty` | src/matchwise_app.py:136 | `filter(None, …)` keeps exactly the non-empty groups. |
| `MatchwiseApp.AppendKept` | src/matchwise_app.py:123-126 | The inner loop appends the kept tokens of one span. |
| `MatchwiseApp.HarvestSkills` | src/matchwise_app.py:119-126 | The nested loops harvest the kept tokens of every match, in order. |
| `MatchwiseApp.ProcessJd` | src/matchwise_app.py:113-144 | The method builds the record of `JdRecordFacts`. |
| `MatchwiseApp.JdRecordFacts` | src/matchwise_app.py:113-144 | The record holds the title, the description and the first ten harvested skills, in order. Experience is the first match, or "Not specified" when there is none. Education is the non-empty groups of the first match joined by a space, or "Not specified" when there is no match. |
| `MatchwiseApp.MatchedCount` | src/matchwise_app.py:327-330 | At most every required skill is matched. |
| `MatchwiseApp.AppSkillScore` | src/matchwise_app.py:323-333 | The score is the number of lowercased required skills contained in some lowercased owned skill, divided by the number required. It is 0.5 when nothing is required and lies in [0, 1]. |
| `MatchwiseApp.Clamp` | src/matchwise_app.py:345-348 | `min(hi, max(lo, x))` lies in [lo, hi] and leaves x unchanged when x is already inside. |
| `MatchwiseApp.CalculateMatch` | src/matchwise_app.py:305-350 | The counter loop computes the specification `AppScoresOf` for the two simulated terms. |
| `MatchwiseApp.AppScoresBounds` | src/matchwise_app.py:345-348 | The reported total is clamped to [0.5, 0.98] and the skills score to [0.5, 0.95]. Experience and education are reported as drawn. |
| `MatchwiseApp.NoRequiredSkillsNeverShortlisted` | src/matchwise_app.py:333-349 | With no required skills, the skills score is 0.5 and the unclamped total stays at or below 0.75, so nobody is shortlisted. |
| `MatchwiseApp.ShortlistNeedsSkills` | src/matchwise_app.py:342-349 | Being shortlisted (strictly above 0.75, unclamped) needs required skills, and more than 60% of them matched. |
| `MatchwiseApp.AllSkillsMatched` | src/matchwise_app.py:342-349 | With every required skill matched, the candidate is shortlisted exactly when a simulated term is above its 0.5 minimum. |
| `MatchwiseApp.ExactCountedBySubstring` | src/matchwise_app.py:329 | Every exact match of the agent's scorer is also a substring match of the app's scorer. |
| `MatchwiseApp.SubstringScoreAtLeastExact` | src/matchwise_app.py:323-333 | The app's substring score is never below the agent's exact-match score. |
| `MatchwiseApp.JavaInsideJavaScript` | src/matchwise_app.py:329 | The two scorers disagree: "Java" is matched by "JavaScript" here (score 1.0) and not by the agent's exact match (score 0.0). |
| `MatchwiseApp.NewInterviewAgent` | src/matchwise_app.py:400 | The agent's three format instructions differ from each other. |
| `MatchwiseApp.FormatInstructionsChoice` | src/matchwise_app.py:471-478 | The video-call text is chosen exactly for "video call" in any case, and the phone-call text exactly for "phone call". The in-person text is chosen exactly for everything else. |
| `MatchwiseApp.FormatInstructionsIgnoreCase` | src/matchwise_app.py:473-475 | The choice depends only on the lowercased format. |
| `MatchwiseApp.FormFormatsCovered` | src/matchwise_app.py:1606-1610 | The form's "Video Call", "Phone Call" and "In-person" each get their own instructions. |
| `MatchwiseApp.InviteEmailMentions` | src/matchwise_app.py:435-469 | The email names the job, the candidate, the date, the time, the format, its instructions and the company. |
| `MatchwiseApp.InviteEmailEnds` | src/matchwise_app.py:440-469 | The email is returned unstripped: it starts with a line break and ends with the closing indentation. |
| `MatchwiseApp.BookInterviews` | src/matchwise_app.py:1615-1637 | No selected candidate and no selected slot each give their refusal. Otherwise the loop makes exactly the round-robin calls and counts the successful ones. |
| `MatchwiseApp.RoundRobinCalls` | src/matchwise_app.py:1624-1634 | Every selected match is tried once, in order, at one of the selected slots. |
| `MatchwiseApp.RoundRobinSlots` | src/matchwise_app.py:1626-1637 | The count is the number of bookings that returned an id (0 and none count as failures). The k-th successful booking used slot `k mod len(time_slots)`. |
| `JobDescriptionAgent.AnyContainsSome` | src/agents/job_description_agent.py:239-242 | `any(word in s …)` holds exactly when some word occurs in s. |
| `JobDescriptionAgent.CueLengthAt` | src/agents/job_description_agent.py:240 | A cue found at the start of the text is one of the alternatives, matched case-insensitively. |
| `JobDescriptionAgent.RemoveCues` | src/agents/job_description_agent.py:240 | Removing cue phrases never lengthens the text. |
| `JobDescriptionAgent.RemoveCuesNoCue` | src/agents/job_description_agent.py:240 | Text with no cue anywhere is left unchanged. |
| `JobDescriptionAgent.BlankIffEmpty` | src/agents/job_description_agent.py:232-234 | Only items that are empty once stripped are skipped. |
| `JobDescriptionAgent.Kinds` | src/agents/job_description_agent.py:231-246 | Every bullet item is classified, one classification per item. |
| `JobDescriptionAgent.KindsAppend` | src/agents/job_description_agent.py:231-246 | Classifying a concatenation concatenates the classifications. |
| `JobDescriptionAgent.ClassifyAppend` | src/agents/job_description_agent.py:241-246 | Both lists of a concatenation are the concatenated lists of the parts, so relative order is kept. |
| `JobDescriptionAgent.PartitionCount` | src/agents/job_description_agent.py:239-246 | Every non-blank item lands in exactly one of the two lists. |
| `JobDescriptionAgent.ListedNonBlank` | src/agents/job_description_agent.py:231-246 | The two lists together hold as many entries as there are items that are non-empty once stripped. |
| `JobDescriptionAgent.ItemLands` | src/agents/job_description_agent.py:239-246 | An item classified as a skill is in `required_skills`, and one classified as a responsibility is in `responsibilities`. |
| `JobDescriptionAgent.DutySound` | src/agents/job_description_agent.py:242-243 | A responsibility is a stripped, non-empty item whose lowercase form holds an action verb and no skill cue. |
| `JobDescriptionAgent.FirstMatch` | src/agents/job_description_agent.py:208-224 | The "first pattern wins" loop returns the groups of the first pattern that matches, and none when no pattern does. |
| `JobDescriptionAgent.BasicJobFacts` | src/agents/job_description_agent.py:178-248 | The record has the given title and description, and no preferred skills. Experience (stripped group 1) and education (stripped whole match) come from the first pattern that matches, even when a later one matches too; each is "" when none does. |
| `JobDescriptionAgent.ClassifyBullets` | src/agents/job_description_agent.py:231-246 | The classification loop yields exactly the skills and responsibilities of the classified items, in order. |
| `JobDescriptionAgent.BasicParse` | src/agents/job_description_agent.py:178-248 | The method builds the record `BasicJobFacts` describes. |
| `JobDescriptionAgent.ProcessJobDescription` | src/agents/job_description_agent.py:33-61 | It uses the text processor's parser when there is one, and the built-in parser otherwise. |
| `JobDescriptionAgent.DispatchFacts` | src/agents/job_description_agent.py:47-51 | Only the built-in parser keeps the description. The title is the one given unless a language model's reply replaced it. |
| `JobDescriptionAgent.AppendSection` | src/agents/job_description_agent.py:148-166 | Appends the titled list followed by a blank line, or nothing when the list is empty. |
| `JobDescriptionAgent.AppendValueLine` | src/agents/job_description_agent.py:169-174 | Appends the labelled line, or nothing when the value is empty. |
| `JobDescriptionAgent.SummarizeJob` | src/agents/job_description_agent.py:128-176 | The accumulated string is the summary, header first, then each section in the order of the code. |
| `JobDescriptionAgent.SummaryPiecesOccur` | src/agents/job_description_agent.py:145-174 | The summary starts with "Job Summary: {title}" (default "Unknown Position") and contains each of its sections. |
| `JobDescriptionAgent.SectionLine` | src/agents/job_description_agent.py:150-158 | Each item of a listed section has its "- item" line in the summary. |
| `JobDescriptionAgent.SummaryMentions` | src/agents/job_description_agent.py:147-174 | The summary lists the first five responsibilities and every required and preferred skill. It also shows the experience and education lines when they are non-empty. |
| `JobDescriptionAgent.SummaryCapsResponsibilities` | src/agents/job_description_agent.py:150 | Responsibilities past the fifth leave the summary unchanged. |
| `JobDescriptionAgent.SummaryOnlyHeader` | src/agents/job_description_agent.py:147-174 | The summary is the bare header exactly when all five fields are empty: every section is omitted when its field is. |
| `CvProcessingAgent.LastComponent` | src/agents/cv_processing_agent.py:48 | The file name is one of the path's components, or "". |
| `CvProcessingAgent.BaseNameNoSeparator` | src/agents/cv_processing_agent.py:48 | The file name holds no "/". |
| `CvProcessingAgent.SplitOnLast` | src/agents/cv_processing_agent.py:48 | The last part of a split path is what follows the last separator. |
| `CvProcessingAgent.BaseNameOfPath` | src/agents/cv_processing_agent.py:48 | The name of a file in a directory is the file's own name. |
| `CvProcessingAgent.ProcessCv` | src/agents/cv_processing_agent.py:37-85 | The method returns the outcome `CvOutcomeFacts` describes. |
| `CvProcessingAgent.CvOutcomeFacts` | src/agents/cv_processing_agent.py:48-75 | The result is the failure record, holding the file name and "Failed to extract text", exactly when no text was extracted; with no PDF parser it always is. A processed record keeps the full text and the base-name file name. Without a text processor it has no contacts, skills, education or experience. With one, its contact keys are the five defaults and its skills hold no empty string. |
| `CvProcessingAgent.ContactLines` | src/agents/cv_processing_agent.py:227-229 | Each contact entry gives its own line. |
| `CvProcessingAgent.ContactSectionBare` | src/agents/cv_processing_agent.py:226-230 | The contact section lists nothing exactly when every entry is the name or has no value. |
| `CvProcessingAgent.CvSummaryContacts` | src/agents/cv_processing_agent.py:227-229 | Every contact entry other than the name that has a value appears as "- Key: value" with the key in title case. |
| `CvProcessingAgent.EducationTexts` | src/agents/cv_processing_agent.py:244-257 | Each education entry gives one line. |
| `CvProcessingAgent.ExperienceBlocks` | src/agents/cv_processing_agent.py:263-281 | Each experience entry gives one block. |
| `CvProcessingAgent.AppendContact` | src/agents/cv_processing_agent.py:226-230 | Appends the contact section. |
| `CvProcessingAgent.AppendSkills` | src/agents/cv_processing_agent.py:233-239 | Appends the skills section: at most ten lines, then the count of the rest. |
| `CvProcessingAgent.AppendEducation` | src/agents/cv_processing_agent.py:242-258 | Appends the education section. |
| `CvProcessingAgent.AppendExperience` | src/agents/cv_processing_agent.py:261-282 | Appends the experience section. |
| `CvProcessingAgent.SummarizeCv` | src/agents/cv_processing_agent.py:206-284 | The accumulated string is the summary: header, contacts, skills, education, experience. |
| `CvProcessingAgent.CvPiecesOccur` | src/agents/cv_processing_agent.py:221-284 | The summary starts with "CV Summary: {name}" (default "Unknown Candidate") and contains each section. |
| `CvProcessingAgent.CvSummarySkills` | src/agents/cv_processing_agent.py:233-239 | The first ten skills are listed. With more than ten, "- ...and N more" follows, with N the count minus ten. Up to ten skills are listed whole, with no count. |
| `CvProcessingAgent.EducationTextFacts` | src/agents/cv_processing_agent.py:245-255 | The degree comes first, then " from institution" and " (year)" only when they are given. The line is empty only when all three are. |
| `CvProcessingAgent.DescriptionLineFacts` | src/agents/cv_processing_agent.py:278-281 | An empty description gives no line and a short one is shown whole. A longer one is cut to 100 characters followed by "...". |
| `CvProcessingAgent.CvSummaryHistory` | src/agents/cv_processing_agent.py:242-282 | Every education line and every experience headline appears in the summary. |
| `CvProcessingAgent.CvSummaryBare` | src/agents/cv_processing_agent.py:233-282 | The summary is the header and the contact section alone exactly when there are no skills, education or experience. |
| `CvProcessingAgent.BareRecordSummary` | src/agents/cv_processing_agent.py:64-72 | The record built without a text processor summarises to the bare header "CV Summary: Unknown Candidate" followed by an empty contact section. |
| `TextProcessor.ContactDict` | src/utils/text_processor.py:41-47 | Contact info always has exactly the keys name, email, phone, linkedin and location, in that order. |
| `TextProcessor.FirstFindallSource` | src/utils/text_processor.py:62-66 | The phone loop finds nothing exactly when no pattern matches. Otherwise its match comes from the first pattern with a match. |
| `TextProcessor.ExtractContactInfo` | src/utils/text_processor.py:30-96 | Starting from the "" defaults, the assignments and the early-breaking phone loop give the specification's contact details. |
| `TextProcessor.ContactWithoutClient` | src/utils/text_processor.py:74-94 | Name and location come only from the client, so without one they stay "". Email, phone and profile do not depend on the client. |
| `TextProcessor.PhonePriority` | src/utils/text_processor.py:56-66 | The phone is the first match of the first phone pattern with a match, or "" when none has one. |
| `TextProcessor.LinkedinPrefixed` | src/utils/text_processor.py:69-72 | A profile found is stored behind "https://www."; none found leaves "". |
| `TextProcessor.StrippedSound` | src/utils/text_processor.py:125 | Each kept part is a stripped, non-empty part of the split. |
| `TextProcessor.StrippedComplete` | src/utils/text_processor.py:125 | Every part that is non-empty once stripped is kept. |
| `TextProcessor.StrippedClean` | src/utils/text_processor.py:297 | Kept items are non-empty and have no whitespace at either end. |
| `TextProcessor.FirstDelimiter` | src/utils/text_processor.py:123-126 | The chosen delimiter is the first of the list present in the section, and there is none when none is present. |
| `TextProcessor.FirstDelimiterAt` | src/utils/text_processor.py:123-126 | The first delimiter present is the one chosen. |
| `TextProcessor.SectionWithoutDelimiter` | src/utils/text_processor.py:123-126 | A section with none of the delimiters contributes nothing. |
| `TextProcessor.SectionSplitsOnFirstDelimiter` | src/utils/text_processor.py:123-126 | A section is split on the first delimiter present only, and its stripped non-empty parts are kept. |
| `TextProcessor.SplitSection` | src/utils/text_processor.py:123-126 | The delimiter loop with its break computes the section's skills. |
| `TextProcessor.Contributions` | src/utils/text_processor.py:118-121 | Each section pattern contributes one list. |
| `TextProcessor.FirstNonEmptySource` | src/utils/text_processor.py:127-128 | The skills found come from the first pattern that contributed any; all earlier patterns contributed none. |
| `TextProcessor.FirstNonEmptyEmpty` | src/utils/text_processor.py:118-128 | Nothing is found exactly when every pattern contributed nothing. |
| `TextProcessor.RuleSkillsSource` | src/utils/text_processor.py:118-128 | Rule-based skills come from the section of one matching pattern; every earlier pattern failed to match or contributed nothing. There are none exactly when no pattern contributes any. |
| `TextProcessor.SkillsFallbackOnlyWhenEmpty` | src/utils/text_processor.py:131 | The client is consulted only when the rule-based pass found nothing; otherwise the result does not depend on it. |
| `TextProcessor.DedupeFacts` | src/utils/text_processor.py:149 | Deduplication keeps exactly the non-empty values, each once. |
| `TextProcessor.ExtractSkills` | src/utils/text_processor.py:98-151 | The nested loops with their breaks, then the fallback and the deduplication, compute the specification. |
| `TextProcessor.ExtractedSkillsFacts` | src/utils/text_processor.py:149 | The returned skills hold no empty string and no duplicate, and are exactly the non-empty candidates. |
| `TextProcessor.UnknownKeyIgnored` | src/utils/text_processor.py:281-283 | A reply key that is not in the default record changes nothing. |
| `TextProcessor.MergeKeyFilter` | src/utils/text_processor.py:281-283 | Merging a reply equals merging only its known keys. |
| `TextProcessor.MergeKeepsDescription` | src/utils/text_processor.py:250-257 | The merge never adds a description, which is not a key of the default record. |
| `TextProcessor.BulletItems` | src/utils/text_processor.py:295-297 | Every bullet match gives one item. |
| `TextProcessor.ParseJobDescription` | src/utils/text_processor.py:238-320 | The method builds the specification's record: the merge with a client, the regular-expression fallback without one. |
| `TextProcessor.ParsedJobFacts` | src/utils/text_processor.py:250-320 | A failed call or bad JSON leaves the defaults, with no regex fallback. The record never has a description. Without a client the title is kept, the preferred skills stay empty, and skills and responsibilities are stripped and non-empty. |
| `TextProcessor.AnalyzeCv` | src/utils/text_processor.py:322-340 | The analysis holds each extractor's result and the full text. |
| `TextProcessor.AnalysisWithoutClient` | src/utils/text_processor.py:153-236 | Without a client, education and experience are empty, and name and location are "". |
| `Records.FirstSearch` | src/agents/job_description_agent.py:208-224 | Finds nothing exactly when no pattern matches. Otherwise it returns the first matching pattern's index and groups, with every earlier pattern not matching. |
| `Text.Lower` | src/agents/matching_agent.py:307-308 | `str.lower` maps each character and keeps the length. |
| `Text.LowerAll` | src/agents/matching_agent.py:307-308 | The list comprehension lowercases every skill, keeping the order and the length. |
| `Text.LowerIdempotent` | src/matchwise_app.py:473-475 | Lowercasing twice is lowercasing once. |
| `Text.Strip` | src/agents/job_description_agent.py:232 | `str.strip` shortens or keeps the text, and leaves no whitespace at either end. |
| `Text.SplitOn` | src/utils/text_processor.py:125 | `str.split` gives at least one part, none of which holds the delimiter. |
| `Text.SplitJoin` | src/agents/scheduler_agent.py:173 | Splitting a join on its separator gives back the parts, when no part holds the separator. |
| `Text.Take` | src/agents/job_description_agent.py:150 | Slicing `[:n]` gives the first min(n, len) elements. |
| `Text.Title` | src/agents/cv_processing_agent.py:229 | `str.title` keeps the length. |
| `Text.NatToString` | src/agents/cv_processing_agent.py:238 | The count renders as a non-empty string of digits. |
| `Text.NatToStringValue` | src/agents/cv_processing_agent.py:238 | The rendered digits read back as the count. |

## Left out

- The Streamlit pages, the SQLite and SQLAlchemy layer, the HTTP routes and the deployment scripts are I/O and presentation. Only the slot round-robin of the scheduling page is modelled.
- The language-model client, its prompts, retries and JSON parsing are parameters. So are the `process_*_with_llm` methods outside the matching agent, because they are prompt and parse around the modelled parsers.
- The regular-expression engine and `json.loads` are abstract. The patterns' source text is kept but not interpreted, except for the `re.split` and `re.sub` written out above.
- PDF extraction, embeddings and `batch_process_directory` are file I/O and external services. The PDF parser is a parameter of `ProcessCv`; embeddings are not modelled.
- `datetime.date.today()` and `strftime` are parameters. Dates are unbounded ordinals, so the date overflow past year 9999 is not modelled.
- The random experience and education terms of `calculate_match` are the inputs `exp` and `edu`, bounded to [0.5, 0.9].
- `MatchwiseApp.CalculateMatch`: the reported scores are clamped but not rounded to two decimals, because `round` on floats is not modelled.
- `MatchingAgent.BatchMatch` and `MatchingAgent.BatchMatchCorrected`: `results.sort` works in place on a list; the model sorts a sequence value.
- The external scorer `scorer.score_match` is a parameter, and its results are taken as they are.
- `TextProcessor.ExtractSkills`: `list(set(...))` has no defined order. The model keeps first occurrences, and the contracts speak only of membership and distinctness.
- `Text.Lower` and `Text.Title` map ASCII letters only, and so does the case-insensitive `(?i)` cue removal (`JobDescriptionAgent.RemoveCues`). Unicode case mapping is not modelled. `Text.Strip` removes the full `str.isspace` set, including the Unicode spaces.
- `SchedulerAgent.SendInvitation`: `send_email`'s return value is ignored by the code. The sender parameter's boolean means "did not raise".
- `SchedulerAgent.NewScheduler` and `MatchwiseApp.NewInterviewAgent`: the template text is a field of the agent value, built once with the source's text. The email lemmas hold for any text with the stated framing.
- `TextProcessor.ParseJobDescription`: a reply value of the other kind than the field's (a list for "title", a string for "required_skills") is dropped by `SetJobField`, where the code's `job_info[key] = parsed_info[key]` (src/utils/text_processor.py:281-283) stores it as it is. The job record has typed fields and cannot hold a value of the wrong type.
- `JobDescriptionAgent.DispatchFacts`: the title is stated for the paths without a language model, because a reply may replace it with any value.
- Logging, the job title `None` case (an explicitly stored `None` is read as absent), and exceptions raised by the regular-expression engine are not modelled.

## Findings

| source | as written | input that shows it | evidently intended | confidence | as-written member | corrected member |
|---|---|---|---|---|---|---|
| src/agents/matching_agent.py:79-82 | The LLM path takes the scorer's result and overrides the flag only for "Highly Recommend", "Recommend" and "Not Recommended". The threshold test of `match_candidate_to_job` is never applied, so with the fallback scorer a "Consider" answer or a reply that is not JSON leaves `is_shortlisted` absent. | The fallback scorer with threshold 0.7. The job requires ["Python"] and the candidate has ["python"], so the total is 0.75. The LLM answers "Consider". The candidate is not shortlisted. | The source comment "For 'Consider', keep the threshold-based decision": apply `total_score >= threshold` first, then let a recognised recommendation override it. | not executed | `MatchingAgent.MatchWithLlm` (counterexample `MatchingAgent.ConsiderLosesThresholdDecision`) | `MatchingAgent.MatchWithLlmCorrected` |
