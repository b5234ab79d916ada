/** The interview scheduler (`src/agents/scheduler_agent.py`): business-day
    arithmetic on date ordinals, the rejected/pending result of one
    scheduling request, batch scheduling on consecutive business days and the
    template invitation email. */
module SchedulerAgent {
  import opened Wrappers
  import opened Text
  import opened Records
  import opened MatchingAgent

  /** The time slots offered when the caller gives none. */
  function DefaultSlots(): seq<string> {
    ["10:00 AM - 11:00 AM", "2:00 PM - 3:00 PM", "4:00 PM - 5:00 PM"]
  }

  /** The interview formats offered when the caller gives none. */
  function DefaultFormats(): seq<string> {
    ["Video call", "Phone call", "In-person"]
  }

  // ----- dates -----

  /** `date.fromordinal(d).weekday()`: ordinal 1 (1 January of year 1) is a
      Monday, and Monday is 0. */
  function Weekday(d: int): int {
    (d + 6) % 7
  }

  predicate IsBusinessDay(d: int) {
    Weekday(d) < 5
  }

  lemma WeekdayNext(d: int)
    ensures Weekday(d + 1) == if Weekday(d) == 6 then 0 else Weekday(d) + 1
  {
    var q := (d + 6) / 7;
    assert d + 6 == 7 * q + Weekday(d);
    if Weekday(d) == 6 {
      assert d + 7 == 7 * (q + 1) + 0;
    } else {
      assert d + 7 == 7 * q + (Weekday(d) + 1);
    }
  }

  /** The first business day after `d`: one of the next three days, because
      a weekend is two days long. */
  function NextBusinessDate(d: int): int {
    if IsBusinessDay(d + 1) then d + 1 else if IsBusinessDay(d + 2) then d + 2 else d + 3
  }

  lemma NextBusinessDateIsNext(d: int)
    ensures d < NextBusinessDate(d) <= d + 3
    ensures IsBusinessDay(NextBusinessDate(d))
    ensures forall e :: d < e < NextBusinessDate(d) ==> !IsBusinessDay(e)
  {
    WeekdayNext(d);
    WeekdayNext(d + 1);
    WeekdayNext(d + 2);
  }

  /** The n-th business day after `d` (`d` itself when n = 0). */
  function AddBusinessDays(d: int, n: nat): int
    decreases n
  {
    if n == 0 then d else AddBusinessDays(NextBusinessDate(d), n - 1)
  }

  /** The number of business days in the interval `(d, e]`: the reference
      definition the stepping loop is checked against. */
  ghost function CountBusinessDays(d: int, e: int): nat
    requires d <= e
    decreases e - d
  {
    if e == d then 0 else CountBusinessDays(d, e - 1) + (if IsBusinessDay(e) then 1 else 0)
  }

  lemma {:induction false} CountSplit(d: int, m: int, e: int)
    requires d <= m <= e
    ensures CountBusinessDays(d, e) == CountBusinessDays(d, m) + CountBusinessDays(m, e)
    decreases e - m
  {
    if e > m {
      CountSplit(d, m, e - 1);
    }
  }

  lemma {:induction false} CountNone(d: int, e: int)
    requires d <= e
    requires forall x :: d < x <= e ==> !IsBusinessDay(x)
    ensures CountBusinessDays(d, e) == 0
    decreases e - d
  {
    if e > d {
      CountNone(d, e - 1);
    }
  }

  /** `_get_next_business_day(d, n)` is `d` itself for n = 0, and otherwise a
      later day that is Monday to Friday with exactly n business days in
      `(d, result]`. */
  lemma {:induction false} AddBusinessDaysCounts(d: int, n: nat)
    ensures AddBusinessDays(d, n) >= d
    ensures CountBusinessDays(d, AddBusinessDays(d, n)) == n
    ensures n == 0 ==> AddBusinessDays(d, n) == d
    ensures n > 0 ==> AddBusinessDays(d, n) > d && IsBusinessDay(AddBusinessDays(d, n))
    decreases n
  {
    if n > 0 {
      var nb := NextBusinessDate(d);
      NextBusinessDateIsNext(d);
      AddBusinessDaysCounts(nb, n - 1);
      var e := AddBusinessDays(d, n);
      CountSplit(d, nb, e);
      CountNone(d, nb - 1);
      assert CountBusinessDays(d, nb) == CountBusinessDays(d, nb - 1) + 1;
    }
  }

  /** Advancing by a and then by b business days is advancing by a + b. */
  lemma {:induction false} AddBusinessDaysCompose(d: int, a: nat, b: nat)
    ensures AddBusinessDays(AddBusinessDays(d, a), b) == AddBusinessDays(d, a + b)
    decreases a
  {
    if a > 0 {
      AddBusinessDaysCompose(NextBusinessDate(d), a - 1, b);
    }
  }

  /** More business days give a strictly later date. */
  lemma AddBusinessDaysStrict(d: int, a: nat, b: nat)
    requires a < b
    ensures AddBusinessDays(d, a) < AddBusinessDays(d, b)
  {
    AddBusinessDaysCompose(d, a, b - a);
    AddBusinessDaysCounts(AddBusinessDays(d, a), b - a);
  }

  /** Stepping onto a weekend day does not change where the next business day is. */
  lemma SkipWeekendDay(d: int, m: nat)
    requires m > 0 && !IsBusinessDay(d + 1)
    ensures AddBusinessDays(d + 1, m) == AddBusinessDays(d, m)
  {
    NextBusinessDateIsNext(d);
    assert NextBusinessDate(d + 1) == NextBusinessDate(d);
  }

  /** `_get_next_business_day`: steps one day at a time, counting the days
      that are Monday to Friday; a count of zero or less returns the start date. */
  method NextBusinessDay(start: int, daysToAdd: int) returns (current: int)
    ensures current == AddBusinessDays(start, if daysToAdd > 0 then daysToAdd else 0)
  {
    ghost var n: nat := if daysToAdd > 0 then daysToAdd else 0;
    ghost var target := AddBusinessDays(start, n);
    AddBusinessDaysCounts(start, n);
    current := start;
    var added := 0;
    while added < daysToAdd
      invariant 0 <= added <= n
      invariant AddBusinessDays(current, n - added) == target
      invariant current <= target
      decreases target - current
    {
      AddBusinessDaysCounts(current, n - added);
      if Weekday(current + 1) < 5 {
        assert NextBusinessDate(current) == current + 1;
      } else {
        SkipWeekendDay(current, n - added);
      }
      current := current + 1;
      if Weekday(current) < 5 {
        added := added + 1;
      }
    }
  }

  // ----- the invitation email -----

  /** `datetime.date.today()` as an ordinal and `strftime("%A, %B %d, %Y")`. */
  datatype Clock = Clock(today: int, longDate: int -> string)

  /** The generative-text client asked to write the email from the candidate,
      the job, the formatted date, the slots and the formats; `None` when the
      call raises. */
  type EmailWriter = (CandidateRecord, JobRecord, string, seq<string>, seq<string>) -> Option<string>

  /** `email_sender.send_email(recipient, subject, content)`; false when it raises. */
  type EmailSender = (string, string, string) -> bool

  /** A scheduler: the optional text client, the optional email sender and
      the fixed text of its template email. */
  datatype Scheduler = Scheduler(writer: Option<EmailWriter>, sender: Option<EmailSender>, letter: Letter)

  /** `SchedulerAgent(llm_client, email_sender)`: the scheduler with the
      template text `generate_interview_email` writes out, which starts and
      ends with a visible character. */
  function NewScheduler(writer: Option<EmailWriter>, sender: Option<EmailSender>): (s: Scheduler)
    ensures s.writer == writer && s.sender == sender
    ensures Framed(s.letter)
  {
    OurCompanyLetterFramed();
    Scheduler(writer, sender, OurCompanyLetter())
  }

  function Bullets(slots: seq<string>): (r: seq<string>)
    ensures |r| == |slots|
    ensures forall i :: 0 <= i < |slots| ==> r[i] == "- " + slots[i]
  {
    seq(|slots|, i requires 0 <= i < |slots| => "- " + slots[i])
  }

  /** `"\n".join(f"- {slot}" for slot in slots)`. */
  function SlotsText(slots: seq<string>): string {
    Join(Bullets(slots), "\n")
  }

  /** The slot lines can be read back: splitting the slots text at line breaks
      gives one "- slot" line per slot, in order. */
  lemma SlotsTextLines(slots: seq<string>)
    requires slots != []
    requires forall i :: 0 <= i < |slots| ==> '\n' !in slots[i]
    ensures SplitOn(SlotsText(slots), '\n') == Bullets(slots)
  {
    var b := Bullets(slots);
    forall k | 0 <= k < |b| ensures '\n' !in b[k] {
      assert b[k] == "- " + slots[k];
    }
    SplitJoin(b, '\n');
  }

  /** The fixed text of the template f-string, piece by piece between the
      substituted values. */
  datatype Letter = Letter(subject: string, greeting: string, congratulations: string, invitation: string,
                           slotsHeading: string, formatHeading: string, closing: string, signature: string)

  /** The template text of `generate_interview_email`. */
  function OurCompanyLetter(): Letter {
    Letter(
      "Subject: Interview Invitation: ",
      " Position at Our Company\n\nDear ",
      ",\n\nCongratulations! " + "We are pleased to inform " + "you that you have been "
      + "shortlisted for the ",
      " position at Our Company. " + "Your skills and experience " + "have impressed our hiring "
      + "team, and we would like " + "to invite you for an " + "interview.\n\nInterview "
      + "Details:\n- Date: ",
      "\n- Available Time Slots:\n",
      "\n- Format: ",
      "\n\nPlease reply to this " + "email with your preferred " + "time slot and interview "
      + "format at your earliest " + "convenience.\n\nDuring " + "the interview, we will "
      + "discuss your experience, " + "skills, and how they " + "align with our team's "
      + "needs. You will also " + "have the opportunity " + "to learn more about "
      + "our company, the role, " + "and ask any questions " + "you may have.\n\nIf you "
      + "have any questions before " + "the interview or need " + "to reschedule, please "
      + "don't hesitate to contact " + "us at hr@ourcompany.com " + "or call us at (123) "
      + "456-7890.\n\nWe look forward " + "to speaking with you " + "soon!\n\nBest regards,\n\n",
      "HR Department\nOur " + "Company\nhr@ourcompany.com\n" + "(123) 456-7890")
  }

  /** The letter's text begins and ends with a character `.strip()` keeps. */
  predicate Framed(l: Letter) {
    && l.subject != [] && !IsSpace(l.subject[0])
    && l.signature != [] && !IsSpace(l.signature[|l.signature| - 1])
  }

  lemma OurCompanyLetterFramed()
    ensures Framed(OurCompanyLetter())
  {
    var l := OurCompanyLetter();
    assert l.subject[0] == 'S';
    assert l.signature[|l.signature| - 1] == '0';
  }

  /** The pieces of the template f-string in order: fixed text at the even
      positions, the substituted values at the odd ones. */
  function EmailParts(l: Letter, name: string, title: string, dateText: string, slotsText: string,
                      formatsText: string): seq<string> {
    [ l.subject, title, l.greeting, name, l.congratulations, title, l.invitation, dateText,
      l.slotsHeading, slotsText, l.formatHeading, formatsText, l.closing, l.signature ]
  }

  /** The template text between its leading line break and its trailing
      indentation. */
  function EmailBody(l: Letter, name: string, title: string, dateText: string, slotsText: string,
                     formatsText: string): string {
    Concat(EmailParts(l, name, title, dateText, slotsText, formatsText))
  }

  /** The template f-string as written, before `.strip()`. */
  function EmailTemplate(l: Letter, name: string, title: string, dateText: string, slotsText: string,
                         formatsText: string): string {
    "\n" + EmailBody(l, name, title, dateText, slotsText, formatsText) + "\n        "
  }

  /** `.strip()` removes exactly the template's leading line break and trailing
      indentation, whatever is filled in. */
  lemma TemplateStripped(l: Letter, name: string, title: string, dateText: string, slotsText: string,
                         formatsText: string)
    requires Framed(l)
    ensures Strip(EmailTemplate(l, name, title, dateText, slotsText, formatsText))
            == EmailBody(l, name, title, dateText, slotsText, formatsText)
  {
    var parts := EmailParts(l, name, title, dateText, slotsText, formatsText);
    ConcatEnds(parts);
    StripPadded("\n", Concat(parts), "\n        ");
  }

  /** The template email mentions the candidate's name, the job title, the
      date, every offered slot and every offered format. */
  lemma TemplateMentions(l: Letter, name: string, title: string, dateText: string, slots: seq<string>,
                         formats: seq<string>)
    ensures var body := EmailBody(l, name, title, dateText, SlotsText(slots), Join(formats, ", "));
            && Contains(body, name)
            && Contains(body, title)
            && Contains(body, dateText)
            && (forall i :: 0 <= i < |slots| ==> Contains(body, slots[i]))
            && (forall i :: 0 <= i < |formats| ==> Contains(body, formats[i]))
  {
    var parts := EmailParts(l, name, title, dateText, SlotsText(slots), Join(formats, ", "));
    ConcatContains(parts, 1);
    ConcatContains(parts, 3);
    ConcatContains(parts, 7);
    ConcatContains(parts, 9);
    ConcatContains(parts, 11);
    forall i | 0 <= i < |slots| ensures Contains(Concat(parts), slots[i]) {
      JoinContainsPart(Bullets(slots), "\n", i);
      ContainsMiddle("- ", slots[i], []);
      assert "- " + slots[i] + [] == Bullets(slots)[i];
      ContainsTrans(SlotsText(slots), Bullets(slots)[i], slots[i]);
      ContainsTrans(Concat(parts), SlotsText(slots), slots[i]);
    }
    forall i | 0 <= i < |formats| ensures Contains(Concat(parts), formats[i]) {
      JoinContainsPart(formats, ", ", i);
      ContainsTrans(Concat(parts), Join(formats, ", "), formats[i]);
    }
  }

  function Recipient(cand: CandidateRecord): string {
    Get(cand.contactInfo, "email", "")
  }

  function Subject(job: JobRecord): string {
    "Interview Invitation: " + job.title.GetOr("Position") + " at Our Company"
  }

  /** The client's email text, when a client is configured and answers. */
  function Written(s: Scheduler, clock: Clock, cand: CandidateRecord, job: JobRecord, date: int,
                   slots: seq<string>, formats: seq<string>): Option<string> {
    if s.writer.Some? then s.writer.value(cand, job, clock.longDate(date), slots, formats) else None
  }

  /** `generate_interview_email`: the client's text, stripped, when a client is
      configured and answers; otherwise the template filled in with the
      candidate's name (default "Candidate") and the job title (default
      "position"), which is what stripping the template f-string gives
      (`GenerateEmailStripped`). */
  function GenerateEmail(s: Scheduler, clock: Clock, cand: CandidateRecord, job: JobRecord, date: int,
                         slots: seq<string>, formats: seq<string>): string
  {
    var written := Written(s, clock, cand, job, date, slots, formats);
    if written.Some? then Strip(written.value)
    else EmailBody(s.letter, Get(cand.contactInfo, "name", "Candidate"), job.title.GetOr("position"),
                   clock.longDate(date), SlotsText(slots), Join(formats, ", "))
  }

  /** Both branches return a stripped text: the email is `.strip()` of the
      client's text or of the template f-string, and so neither starts nor
      ends with whitespace. */
  lemma GenerateEmailStripped(s: Scheduler, clock: Clock, cand: CandidateRecord, job: JobRecord, date: int,
                              slots: seq<string>, formats: seq<string>)
    requires Framed(s.letter)
    ensures var written := Written(s, clock, cand, job, date, slots, formats);
            var r := GenerateEmail(s, clock, cand, job, date, slots, formats);
            && r == Strip(if written.Some? then written.value
                          else EmailTemplate(s.letter, Get(cand.contactInfo, "name", "Candidate"), job.title.GetOr("position"),
                                             clock.longDate(date), SlotsText(slots), Join(formats, ", ")))
            && (r == [] || (!IsSpace(r[0]) && !IsSpace(r[|r| - 1])))
  {
    TemplateStripped(s.letter, Get(cand.contactInfo, "name", "Candidate"), job.title.GetOr("position"),
                     clock.longDate(date), SlotsText(slots), Join(formats, ", "));
  }

  // ----- one interview -----

  datatype Interview =
    | Rejected(reason: string, matchScore: real)
    | Pending(candidateId: string, jobId: string, matchId: Option<int>, scheduledDate: int,
              availableSlots: seq<string>, availableFormats: seq<string>, emailSent: bool, emailContent: string)
  {
    /** The `status` key of the result. */
    function Status(): string {
      if Rejected? then "rejected" else "pending"
    }
  }

  /** `interview_slots or self.default_interview_slots`: both `None` and an empty
      list are represented by `[]`. */
  function OrDefault(given: seq<string>, default: seq<string>): (r: seq<string>)
    ensures given != [] ==> r == given
    ensures given == [] ==> r == default
  {
    if given == [] then default else given
  }

  /** `schedule_interview`: a match that is not shortlisted is rejected with its
      score; otherwise the interview is pending on the given date (five business
      days after today when none is given) with the given or default slots and
      formats, and the email counts as sent exactly when a sender is configured,
      the candidate has an email address and sending succeeds. */
  function Schedule(s: Scheduler, clock: Clock, m: MatchResult, cand: CandidateRecord, job: JobRecord,
                    date: Option<int>, slots: seq<string>, formats: seq<string>): Interview
  {
    if !Shortlisted(m) then Rejected("Candidate is not shortlisted", ScoreOf(m))
    else
      var d := date.GetOr(AddBusinessDays(clock.today, 5));
      var sl := OrDefault(slots, DefaultSlots());
      var fm := OrDefault(formats, DefaultFormats());
      var content := GenerateEmail(s, clock, cand, job, d, sl, fm);
      var sent := s.sender.Some? && Recipient(cand) != "" && s.sender.value(Recipient(cand), Subject(job), content);
      Pending(cand.cvFilename, job.title.GetOr(""), m.id, d, sl, fm, sent, content)
  }

  /** What `schedule_interview` returns: a match that is not shortlisted
      (flag false or missing) is rejected with its score and nothing else; a
      shortlisted one is pending on the given date, or five business days
      after today when none is given, with non-empty slot and format lists
      (the given ones unless empty), and its email counts as sent exactly when
      a sender is configured, the candidate has an email address and sending
      succeeds. */
  lemma ScheduleFacts(s: Scheduler, clock: Clock, m: MatchResult, cand: CandidateRecord, job: JobRecord,
                      date: Option<int>, slots: seq<string>, formats: seq<string>)
    ensures var r := Schedule(s, clock, m, cand, job, date, slots, formats);
            && (r.Rejected? <==> !Shortlisted(m))
            && (r.Rejected? ==> r.reason == "Candidate is not shortlisted" && r.matchScore == ScoreOf(m))
            && (r.Pending? ==>
                && r.candidateId == cand.cvFilename
                && r.jobId == job.title.GetOr("")
                && r.matchId == m.id
                && r.scheduledDate == date.GetOr(AddBusinessDays(clock.today, 5))
                && r.availableSlots != [] && r.availableFormats != []
                && (slots != [] ==> r.availableSlots == slots)
                && (formats != [] ==> r.availableFormats == formats)
                && r.emailContent == GenerateEmail(s, clock, cand, job, r.scheduledDate, r.availableSlots, r.availableFormats)
                && (r.emailSent <==> && s.sender.Some? && Recipient(cand) != ""
                                     && s.sender.value(Recipient(cand), Subject(job), r.emailContent)))
  {
  }

  /** The sending step of `schedule_interview`: only with a sender and an
      email address, and only a successful send counts. */
  method SendInvitation(s: Scheduler, cand: CandidateRecord, job: JobRecord, content: string) returns (sent: bool)
    ensures sent <==> s.sender.Some? && Recipient(cand) != "" && s.sender.value(Recipient(cand), Subject(job), content)
  {
    sent := false;
    if s.sender.Some? {
      var recipient := Get(cand.contactInfo, "email", "");
      if recipient != "" {
        var delivered := s.sender.value(recipient, Subject(job), content);
        if delivered {
          sent := true;
        }
      }
    }
  }

  /** `schedule_interview`, filling in the result step by step. */
  method ScheduleInterview(s: Scheduler, clock: Clock, m: MatchResult, cand: CandidateRecord, job: JobRecord,
                           date: Option<int>, slots: seq<string>, formats: seq<string>) returns (r: Interview)
    ensures r == Schedule(s, clock, m, cand, job, date, slots, formats)
  {
    if !Shortlisted(m) {
      return Rejected("Candidate is not shortlisted", ScoreOf(m));
    }
    var d: int;
    if date.None? {
      d := NextBusinessDay(clock.today, 5);
    } else {
      d := date.value;
    }
    var sl := if slots != [] then slots else DefaultSlots();
    var fm := if formats != [] then formats else DefaultFormats();
    r := Pending(cand.cvFilename, job.title.GetOr(""), m.id, d, sl, fm, false, "");
    var content := GenerateEmail(s, clock, cand, job, d, sl, fm);
    r := r.(emailContent := content);
    var sent := SendInvitation(s, cand, job, content);
    r := r.(emailSent := sent);
  }

  // ----- batch scheduling -----

  /** The matches whose candidate is known, in order. */
  function Present(ms: seq<MatchResult>, cands: map<string, CandidateRecord>): (r: seq<MatchResult>)
    ensures |r| <= |ms|
    ensures forall m :: m in r <==> m in ms && m.candidateFilename in cands
  {
    if ms == [] then []
    else (if ms[0].candidateFilename in cands then [ms[0]] else []) + Present(ms[1..], cands)
  }

  /** One planned call of `schedule_interview`: the match, its candidate, the date. */
  datatype Slot = Slot(m: MatchResult, cand: CandidateRecord, date: int)

  /** The calls the loop of `batch_schedule_interviews` makes from `date` on: a
      known candidate is scheduled on `date` and moves the date one business
      day on; an unknown one is skipped and leaves the date where it is. */
  function BatchPlan(ms: seq<MatchResult>, cands: map<string, CandidateRecord>, date: int): seq<Slot> {
    if ms == [] then []
    else if ms[0].candidateFilename in cands then
      [Slot(ms[0], cands[ms[0].candidateFilename], date)] + BatchPlan(ms[1..], cands, AddBusinessDays(date, 1))
    else BatchPlan(ms[1..], cands, date)
  }

  /** One planned call per match with a known candidate. */
  lemma {:induction false} BatchPlanLength(ms: seq<MatchResult>, cands: map<string, CandidateRecord>, date: int)
    ensures |BatchPlan(ms, cands, date)| == |Present(ms, cands)|
  {
    if ms != [] {
      if ms[0].candidateFilename in cands {
        BatchPlanLength(ms[1..], cands, AddBusinessDays(date, 1));
      } else {
        BatchPlanLength(ms[1..], cands, date);
      }
    }
  }

  /** The k-th planned call is for the k-th match with a known candidate, on
      the day k business days after the first date. */
  lemma {:induction false} BatchPlanAt(ms: seq<MatchResult>, cands: map<string, CandidateRecord>, date: int, k: nat)
    requires k < |Present(ms, cands)|
    ensures k < |BatchPlan(ms, cands, date)|
    ensures var m := Present(ms, cands)[k];
            BatchPlan(ms, cands, date)[k] == Slot(m, cands[m.candidateFilename], AddBusinessDays(date, k))
  {
    BatchPlanLength(ms, cands, date);
    var p := Present(ms[1..], cands);
    if ms[0].candidateFilename in cands {
      var next := AddBusinessDays(date, 1);
      var r' := BatchPlan(ms[1..], cands, next);
      assert BatchPlan(ms, cands, date) == [Slot(ms[0], cands[ms[0].candidateFilename], date)] + r';
      assert Present(ms, cands) == [ms[0]] + p;
      if k > 0 {
        BatchPlanAt(ms[1..], cands, next, k - 1);
        AddBusinessDaysCompose(date, 1, k - 1);
      }
    } else {
      assert Present(ms, cands) == p;
      BatchPlanAt(ms[1..], cands, date, k);
    }
  }

  /** The whole plan, call by call. */
  lemma BatchPlanShape(ms: seq<MatchResult>, cands: map<string, CandidateRecord>, date: int)
    ensures |BatchPlan(ms, cands, date)| == |Present(ms, cands)|
    ensures forall k :: 0 <= k < |Present(ms, cands)| ==>
              var m := Present(ms, cands)[k];
              BatchPlan(ms, cands, date)[k] == Slot(m, cands[m.candidateFilename], AddBusinessDays(date, k))
  {
    BatchPlanLength(ms, cands, date);
    forall k | 0 <= k < |Present(ms, cands)|
      ensures var m := Present(ms, cands)[k];
              BatchPlan(ms, cands, date)[k] == Slot(m, cands[m.candidateFilename], AddBusinessDays(date, k))
    {
      BatchPlanAt(ms, cands, date, k);
    }
  }

  /** The plan step the loop body takes at index `i`. */
  lemma BatchPlanStep(ms: seq<MatchResult>, i: nat, cands: map<string, CandidateRecord>, date: int)
    requires i < |ms|
    ensures BatchPlan(ms[i..], cands, date)
            == if ms[i].candidateFilename in cands
               then [Slot(ms[i], cands[ms[i].candidateFilename], date)] + BatchPlan(ms[i + 1..], cands, AddBusinessDays(date, 1))
               else BatchPlan(ms[i + 1..], cands, date)
  {
    assert ms[i..][1..] == ms[i + 1..];
  }

  /** Batch scheduling plans one call per shortlisted match whose candidate
      is known, and only for those. */
  lemma BatchPlanChosen(matches: seq<MatchResult>, cands: map<string, CandidateRecord>, today: int)
    ensures var plan := BatchPlan(GetShortlisted(matches), cands, AddBusinessDays(today, 5));
            var chosen := Present(GetShortlisted(matches), cands);
            && |plan| == |chosen|
            && (forall m :: m in chosen <==> m in matches && Shortlisted(m) && m.candidateFilename in cands)
  {
    BatchPlanShape(GetShortlisted(matches), cands, AddBusinessDays(today, 5));
  }

  /** One planned call of the batch. */
  lemma BatchPlanSlot(matches: seq<MatchResult>, cands: map<string, CandidateRecord>, today: int, k: nat)
    requires k < |BatchPlan(GetShortlisted(matches), cands, AddBusinessDays(today, 5))|
    ensures var plan := BatchPlan(GetShortlisted(matches), cands, AddBusinessDays(today, 5));
            var chosen := Present(GetShortlisted(matches), cands);
            && k < |chosen| && plan[k].m == chosen[k] && Shortlisted(plan[k].m)
            && plan[k].date == AddBusinessDays(today, 5 + k)
  {
    var chosen := Present(GetShortlisted(matches), cands);
    BatchPlanLength(GetShortlisted(matches), cands, AddBusinessDays(today, 5));
    BatchPlanAt(GetShortlisted(matches), cands, AddBusinessDays(today, 5), k);
    assert chosen[k] in chosen;
    AddBusinessDaysCompose(today, 5, k);
  }

  /** The k-th planned call is for the k-th chosen match, on the day 5 + k
      business days after today, so the dates strictly increase. */
  lemma BatchPlanFacts(matches: seq<MatchResult>, cands: map<string, CandidateRecord>, today: int)
    ensures var plan := BatchPlan(GetShortlisted(matches), cands, AddBusinessDays(today, 5));
            var chosen := Present(GetShortlisted(matches), cands);
            && (forall k :: 0 <= k < |plan| ==>
                  && k < |chosen| && plan[k].m == chosen[k] && Shortlisted(plan[k].m)
                  && plan[k].date == AddBusinessDays(today, 5 + k))
            && (forall i, j :: 0 <= i < j < |plan| ==> plan[i].date < plan[j].date)
  {
    var start := AddBusinessDays(today, 5);
    var chosen := Present(GetShortlisted(matches), cands);
    var plan := BatchPlan(GetShortlisted(matches), cands, start);
    BatchPlanChosen(matches, cands, today);
    forall k | 0 <= k < |plan|
      ensures && k < |chosen| && plan[k].m == chosen[k] && Shortlisted(plan[k].m)
              && plan[k].date == AddBusinessDays(today, 5 + k)
    {
      BatchPlanSlot(matches, cands, today, k);
    }
    PlanDatesIncrease(plan, today);
  }

  /** Slots dated 5 + k business days after today come in strictly
      increasing date order. */
  lemma PlanDatesIncrease(plan: seq<Slot>, today: int)
    requires forall k :: 0 <= k < |plan| ==> plan[k].date == AddBusinessDays(today, 5 + k)
    ensures forall i, j :: 0 <= i < j < |plan| ==> plan[i].date < plan[j].date
  {
    forall i, j | 0 <= i < j < |plan| ensures plan[i].date < plan[j].date {
      AddBusinessDaysStrict(today, 5 + i, 5 + j);
    }
  }

  /** One planned call: `schedule_interview` with the slot's date and the
      default slot and format lists. */
  function Call(s: Scheduler, clock: Clock, job: JobRecord, slot: Slot): Interview {
    Schedule(s, clock, slot.m, slot.cand, job, Some(slot.date), [], [])
  }

  /** A planned call for a shortlisted match is pending on the slot's date. */
  lemma CallPending(s: Scheduler, clock: Clock, job: JobRecord, slot: Slot)
    requires Shortlisted(slot.m)
    ensures var r := Call(s, clock, job, slot);
            r.Pending? && r.matchId == slot.m.id && r.scheduledDate == slot.date && r.candidateId == slot.cand.cvFilename
  {
  }

  /** The interviews the planned calls produce, in order. */
  function RunPlan(s: Scheduler, clock: Clock, plan: seq<Slot>, job: JobRecord): (r: seq<Interview>)
    ensures |r| == |plan|
  {
    if plan == [] then [] else RunPlan(s, clock, plan[..|plan| - 1], job) + [Call(s, clock, job, plan[|plan| - 1])]
  }

  lemma RunPlanAppend(s: Scheduler, clock: Clock, plan: seq<Slot>, slot: Slot, job: JobRecord)
    ensures RunPlan(s, clock, plan + [slot], job) == RunPlan(s, clock, plan, job) + [Call(s, clock, job, slot)]
  {
    assert (plan + [slot])[..|plan|] == plan;
  }

  lemma {:induction false} RunPlanIndex(s: Scheduler, clock: Clock, plan: seq<Slot>, job: JobRecord, k: nat)
    requires k < |plan|
    ensures RunPlan(s, clock, plan, job)[k] == Call(s, clock, job, plan[k])
  {
    if k < |plan| - 1 {
      RunPlanIndex(s, clock, plan[..|plan| - 1], job, k);
    }
  }

  /** One turn of the batch loop for a known candidate keeps the plan
      invariant: the slot just used is the next planned one. */
  lemma BatchStepPlanned(ms: seq<MatchResult>, i: nat, cands: map<string, CandidateRecord>, date: int,
                         plan: seq<Slot>, done: seq<Slot>)
    requires i < |ms| && ms[i].candidateFilename in cands
    requires plan == done + BatchPlan(ms[i..], cands, date)
    ensures plan == (done + [Slot(ms[i], cands[ms[i].candidateFilename], date)])
                    + BatchPlan(ms[i + 1..], cands, AddBusinessDays(date, 1))
  {
    var slot := Slot(ms[i], cands[ms[i].candidateFilename], date);
    var rest := BatchPlan(ms[i + 1..], cands, AddBusinessDays(date, 1));
    BatchPlanStep(ms, i, cands, date);
    assert BatchPlan(ms[i..], cands, date) == [slot] + rest;
    assert done + ([slot] + rest) == (done + [slot]) + rest;
  }

  /** The interview of that turn extends the results. */
  lemma BatchStepScheduled(s: Scheduler, clock: Clock, job: JobRecord, slot: Slot, done: seq<Slot>,
                           scheduled: seq<Interview>, interview: Interview)
    requires scheduled == RunPlan(s, clock, done, job)
    requires interview == Call(s, clock, job, slot)
    ensures scheduled + [interview] == RunPlan(s, clock, done + [slot], job)
  {
    RunPlanAppend(s, clock, done, slot, job);
  }

  /** One turn of the loop of `batch_schedule_interviews`: a known candidate
      is scheduled on `date` and the date moves one business day on; an
      unknown one is skipped. Both keep the loop's invariants. */
  method BatchTurn(s: Scheduler, clock: Clock, job: JobRecord, ms: seq<MatchResult>, i: nat,
                   cands: map<string, CandidateRecord>, date: int, ghost plan: seq<Slot>, ghost done: seq<Slot>,
                   scheduled: seq<Interview>)
    returns (date': int, ghost done': seq<Slot>, scheduled': seq<Interview>)
    requires i < |ms|
    requires plan == done + BatchPlan(ms[i..], cands, date)
    requires scheduled == RunPlan(s, clock, done, job)
    ensures plan == done' + BatchPlan(ms[i + 1..], cands, date')
    ensures scheduled' == RunPlan(s, clock, done', job)
  {
    var m := ms[i];
    if m.candidateFilename in cands {
      var cand := cands[m.candidateFilename];
      var interview := ScheduleInterview(s, clock, m, cand, job, Some(date), [], []);
      BatchStepPlanned(ms, i, cands, date, plan, done);
      assert interview == Call(s, clock, job, Slot(m, cand, date));
      BatchStepScheduled(s, clock, job, Slot(m, cand, date), done, scheduled, interview);
      done' := done + [Slot(m, cand, date)];
      scheduled' := scheduled + [interview];
      date' := NextBusinessDay(date, 1);
    } else {
      BatchPlanStep(ms, i, cands, date);
      date', done', scheduled' := date, done, scheduled;
    }
  }

  /** `batch_schedule_interviews`: the shortlisted matches are scheduled in
      order from five business days after today, one business day apart. */
  method BatchSchedule(s: Scheduler, clock: Clock, matches: seq<MatchResult>, cands: map<string, CandidateRecord>,
                       job: JobRecord) returns (scheduled: seq<Interview>)
    ensures scheduled == RunPlan(s, clock, BatchPlan(GetShortlisted(matches), cands, AddBusinessDays(clock.today, 5)), job)
  {
    var shortlisted := GetShortlisted(matches);
    var date := NextBusinessDay(clock.today, 5);
    ghost var plan := BatchPlan(shortlisted, cands, date);
    ghost var done: seq<Slot> := [];
    scheduled := [];
    var i := 0;
    while i < |shortlisted|
      invariant 0 <= i <= |shortlisted|
      invariant plan == done + BatchPlan(shortlisted[i..], cands, date)
      invariant scheduled == RunPlan(s, clock, done, job)
    {
      date, done, scheduled := BatchTurn(s, clock, job, shortlisted, i, cands, date, plan, done, scheduled);
      i := i + 1;
    }
    assert BatchPlan(shortlisted[i..], cands, date) == [];
    assert plan == done;
  }

  /** Batch scheduling returns one pending interview per shortlisted match with
      a known candidate, in input order, the k-th for that match's id and
      candidate on the day 5 + k business days after today. */
  lemma BatchScheduleFacts(s: Scheduler, clock: Clock, matches: seq<MatchResult>, cands: map<string, CandidateRecord>,
                           job: JobRecord)
    ensures var r := RunPlan(s, clock, BatchPlan(GetShortlisted(matches), cands, AddBusinessDays(clock.today, 5)), job);
            var chosen := Present(GetShortlisted(matches), cands);
            && |r| == |chosen|
            && forall k :: 0 <= k < |r| ==>
                 && r[k].Pending? && r[k].matchId == chosen[k].id && r[k].candidateId == cands[chosen[k].candidateFilename].cvFilename
                 && r[k].scheduledDate == AddBusinessDays(clock.today, 5 + k)
  {
    var plan := BatchPlan(GetShortlisted(matches), cands, AddBusinessDays(clock.today, 5));
    var chosen := Present(GetShortlisted(matches), cands);
    BatchPlanChosen(matches, cands, clock.today);
    BatchPlanFacts(matches, cands, clock.today);
    BatchPlanShape(GetShortlisted(matches), cands, AddBusinessDays(clock.today, 5));
    var r := RunPlan(s, clock, plan, job);
    forall k | 0 <= k < |r|
      ensures && r[k].Pending? && r[k].matchId == chosen[k].id && r[k].candidateId == cands[chosen[k].candidateFilename].cvFilename
              && r[k].scheduledDate == AddBusinessDays(clock.today, 5 + k)
    {
      RunPlanIndex(s, clock, plan, job, k);
      CallPending(s, clock, job, plan[k]);
    }
  }
}
