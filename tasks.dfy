/** The Celery reminder tasks: the "time until" phrase of the reminder
    e-mail, the decision sequence of `send_interview_reminder` with its
    `reminder_sent` flag, and the daily selection of `check_upcoming_interviews`.
    These tasks see the interview records in their later shape (an interview
    hangs off a job application, has a `scheduled_date`, an `outcome` and a
    `reminder_sent` flag), so the records are declared here. */
module Tasks {
  import opened Wrappers
  import opened Clock
  import Text

  // ---------------------------------------------------------------------------
  // Records
  // ---------------------------------------------------------------------------

  datatype User = User(id: nat, username: string, email: string)

  datatype JobApplication = JobApplication(user: User, companyName: string, applicationStatus: string)

  /** `interviewTypeDisplay` is what `get_interview_type_display()` returns. */
  datatype Interview = Interview(
    id: int,
    application: JobApplication,
    interviewTypeDisplay: string,
    scheduledDate: Instant,
    outcome: string,
    reminderSent: bool)

  datatype Profile = Profile(userId: nat, notificationsEnabled: bool, reminderDaysBefore: int)

  /** The field defaults a `UserProfile.objects.create(user=user)` fills in. */
  datatype ProfileDefaults = ProfileDefaults(notificationsEnabled: bool, reminderDaysBefore: int)

  // ---------------------------------------------------------------------------
  // The "time until" phrase
  // ---------------------------------------------------------------------------

  const MicrosPerHour: int := 3_600_000_000

  datatype TimeUntil = InDays(days: nat) | InHours(hours: nat) | VerySoon

  /** The branch `send_interview_reminder` takes for `scheduled_date - now`,
      a span of `diff` microseconds held as a normalised `timedelta`. Whole
      days win; otherwise the hours of the day part count when they exceed
      one hour; otherwise the interview is "very soon". Because the day
      part of a negative span is rounded down, a span a little in the past
      reads as almost a day of hours. */
  function TimeUntilOf(diff: int): (t: TimeUntil)
    ensures t.InDays? <==> diff >= MicrosPerDay
    ensures t.InDays? ==> Days(t.days) <= diff < Days(t.days + 1)
    ensures t.InHours? ==> 1 <= t.hours <= 23
    ensures t.InHours? <==> diff < MicrosPerDay && diff % MicrosPerDay > SecondsPerHour * MicrosPerSecond + MicrosPerSecond - 1
    ensures t.InHours? ==> t.hours * MicrosPerHour <= diff % MicrosPerDay < (t.hours + 1) * MicrosPerHour
  {
    var d := Normalize(diff);
    assert diff == d.days * MicrosPerDay + (d.seconds * MicrosPerSecond + d.microseconds);
    assert diff % MicrosPerDay == d.seconds * MicrosPerSecond + d.microseconds;
    if d.days > 0 then
      assert diff / MicrosPerDay == d.days;
      InDays(d.days)
    else if d.seconds > SecondsPerHour then
      InHours(d.seconds / SecondsPerHour)
    else
      VerySoon
  }

  /** `"s"` exactly when the count is more than one. */
  function Plural(n: nat): string {
    if n > 1 then "s" else ""
  }

  /** The phrase put into the reminder e-mail. */
  function TimeUntilText(t: TimeUntil): (s: string)
    ensures |s| > 0
    ensures t.InDays? ==> Text.StartsWith(s, "in ") && (s[|s| - 1] == 's' <==> t.days > 1)
    ensures t.InHours? ==> Text.StartsWith(s, "in ") && (s[|s| - 1] == 's' <==> t.hours > 1)
  {
    match t
    case InDays(n) => "in " + Text.NatToString(n) + " day" + Plural(n)
    case InHours(h) => "in " + Text.NatToString(h) + " hour" + Plural(h)
    case VerySoon => "very soon"
  }

  /** A count followed by its unit reads back as that count and unit. */
  lemma CountPhraseUnique(m: nat, um: string, n: nat, un: string)
    requires um == " day" || um == " hour"
    requires un == " day" || un == " hour"
    requires Text.NatToString(m) + (um + Plural(m)) == Text.NatToString(n) + (un + Plural(n))
    ensures m == n && um == un
  {
    var ta := um + Plural(m);
    var tb := un + Plural(n);
    assert ta[0] == ' ' && tb[0] == ' ';
    Text.DigitsThenTailUnique(Text.NatToString(m), ta, Text.NatToString(n), tb);
    Text.NatToStringInjective(m, n);
    assert ta[1] == tb[1];
  }

  /** The count a day or hour phrase carries, and its unit word. */
  function Count(t: TimeUntil): nat {
    if t.InDays? then t.days else if t.InHours? then t.hours else 0
  }

  function Unit(t: TimeUntil): string {
    if t.InDays? then " day" else " hour"
  }

  lemma CountPhraseParts(t: TimeUntil)
    requires !t.VerySoon?
    ensures TimeUntilText(t)[3..] == Text.NatToString(Count(t)) + (Unit(t) + Plural(Count(t)))
  {
    var d := Text.NatToString(Count(t));
    var s := TimeUntilText(t);
    assert s == "in " + (d + (Unit(t) + Plural(Count(t))));
  }

  /** Different branches and different counts give different phrases, so the
      phrase tells the reader exactly which branch and count were taken. */
  lemma TimeUntilTextInjective(a: TimeUntil, b: TimeUntil)
    requires TimeUntilText(a) == TimeUntilText(b)
    ensures a == b
  {
    if a.VerySoon? || b.VerySoon? {
      assert TimeUntilText(a)[0] == TimeUntilText(b)[0];
    } else {
      CountPhraseParts(a);
      CountPhraseParts(b);
      CountPhraseUnique(Count(a), Unit(a), Count(b), Unit(b));
    }
  }

  /** The boundaries the branches draw, on concrete spans. */
  lemma TimeUntilExamples()
    ensures TimeUntilOf(2 * MicrosPerDay) == InDays(2)
    ensures TimeUntilOf(MicrosPerDay) == InDays(1)
    ensures TimeUntilOf(MicrosPerDay - 1) == InHours(23)
    ensures TimeUntilOf(3601 * MicrosPerSecond) == InHours(1)
    ensures TimeUntilOf(3600 * MicrosPerSecond) == VerySoon
    ensures TimeUntilOf(0) == VerySoon
    ensures TimeUntilOf(-30 * 60 * MicrosPerSecond) == InHours(23)
    ensures TimeUntilOf(-23 * MicrosPerHour - 30 * 60 * MicrosPerSecond) == VerySoon
    ensures TimeUntilText(InDays(1)) == "in 1 day"
    ensures TimeUntilText(InDays(3)) == "in 3 days"
    ensures TimeUntilText(InHours(1)) == "in 1 hour"
    ensures TimeUntilText(InHours(23)) == "in 23 hours"
  {
    assert Text.NatToString(23) == Text.NatToString(2) + [Text.DigitChar(3)];
  }

  // ---------------------------------------------------------------------------
  // send_interview_reminder
  // ---------------------------------------------------------------------------

  /** The task's returned dict, or `Retry` when the send failed and the task
      raised `self.retry`. */
  datatype Outcome =
    | Error(message: string)
    | Skipped(message: string)
    | Success(interviewId: int, user: string, company: string, interviewType: string)
    | Retry

  /** The e-mail handed to `send_mail`; its bodies are rendered templates and
      carry `timeUntil`. */
  datatype Email = Email(subject: string, recipient: string, timeUntil: string)

  const AlreadySentMessage: string := "Reminder already sent"
  const DisabledMessage: string := "User has notifications disabled"

  function NotFoundMessage(interviewId: int): string {
    "Interview " + Text.IntToString(interviewId) + " not found"
  }

  /** `Interview.objects.get(id=...)`: the position of the interview with
      that id, the first such when ids repeat. */
  function FindInterview(xs: seq<Interview>, id: int): (r: Option<nat>)
    ensures r.None? <==> forall j :: 0 <= j < |xs| ==> xs[j].id != id
    ensures r.Some? ==> r.value < |xs| && xs[r.value].id == id
    ensures r.Some? ==> forall j :: 0 <= j < r.value ==> xs[j].id != id
  {
    if xs == [] then None
    else if xs[0].id == id then Some(0)
    else match FindInterview(xs[1..], id)
      case None => None
      case Some(k) => Some(k + 1)
  }

  /** `user.profile`: the position of the user's profile, if there is one. */
  function FindProfile(ps: seq<Profile>, userId: nat): (r: Option<nat>)
    ensures r.None? <==> forall j :: 0 <= j < |ps| ==> ps[j].userId != userId
    ensures r.Some? ==> r.value < |ps| && ps[r.value].userId == userId
    ensures r.Some? ==> forall j :: 0 <= j < r.value ==> ps[j].userId != userId
  {
    if ps == [] then None
    else if ps[0].userId == userId then Some(0)
    else match FindProfile(ps[1..], userId)
      case None => None
      case Some(k) => Some(k + 1)
  }

  /** The reminder for `x` at `now`: a subject that names the company and
      then the interview type, sent to the applicant's address, with the
      phrase for the time left until the interview. */
  function ReminderEmail(x: Interview, now: Instant): (e: Email)
    ensures Text.StartsWith(e.subject, "Interview Reminder: " + x.application.companyName)
    ensures Text.EndsWith(e.subject, " - " + x.interviewTypeDisplay)
    ensures e.recipient == x.application.user.email
    ensures e.timeUntil == TimeUntilText(TimeUntilOf(x.scheduledDate - now))
  {
    var lead := "Interview Reminder: " + x.application.companyName;
    var kind := " - " + x.interviewTypeDisplay;
    Text.ConcatEnds(lead, kind);
    assert lead + kind == "Interview Reminder: " + x.application.companyName + " - " + x.interviewTypeDisplay;
    Email(lead + kind, x.application.user.email, TimeUntilText(TimeUntilOf(x.scheduledDate - now)))
  }

  /** What one run of the task returns and leaves in the database. */
  datatype Run = Run(outcome: Outcome, email: Option<Email>, interviews: seq<Interview>, profiles: seq<Profile>)

  /** One run of `send_interview_reminder` for `interviewId` at `now`, where
      `delivered` says whether `send_mail` succeeded. The first matching
      condition decides: a missing interview is an error; a reminder already
      sent is skipped; a missing profile is created with the defaults
      (and stays created whatever follows); disabled notifications are
      skipped; otherwise the e-mail is sent, and only a successful send sets
      the interview's `reminder_sent`. */
  function Remind(xs: seq<Interview>, ps: seq<Profile>, defaults: ProfileDefaults,
                  interviewId: int, now: Instant, delivered: bool): (run: Run)
    ensures run.outcome.Error? <==> FindInterview(xs, interviewId).None?
    ensures run.outcome == Skipped(AlreadySentMessage) <==>
      FindInterview(xs, interviewId).Some? && xs[FindInterview(xs, interviewId).value].reminderSent
    ensures run.email.Some? ==> FindInterview(xs, interviewId).Some?
    ensures run.email.Some? ==> run.email.value == ReminderEmail(xs[FindInterview(xs, interviewId).value], now)
    ensures run.outcome.Success? <==> run.email.Some? && delivered
    ensures run.outcome.Retry? <==> run.email.Some? && !delivered
    ensures run.outcome.Success? ==> run.outcome.interviewId == interviewId
    ensures run.outcome.Success? ==>
      var k := FindInterview(xs, interviewId).value;
      run.interviews == xs[k := xs[k].(reminderSent := true)]
    ensures !run.outcome.Success? ==> run.interviews == xs
    ensures run.outcome.Error? || run.outcome == Skipped(AlreadySentMessage) ==> run.profiles == ps
    ensures |run.interviews| == |xs|
    ensures forall j :: 0 <= j < |xs| && xs[j].id != interviewId ==> run.interviews[j] == xs[j]
  {
    match FindInterview(xs, interviewId)
    case None => Run(Error(NotFoundMessage(interviewId)), None, xs, ps)
    case Some(k) =>
      var x := xs[k];
      if x.reminderSent then Run(Skipped(AlreadySentMessage), None, xs, ps)
      else
        var u := x.application.user;
        var (profile, ps') := match FindProfile(ps, u.id)
          case Some(j) => (ps[j], ps)
          case None =>
            var p := Profile(u.id, defaults.notificationsEnabled, defaults.reminderDaysBefore);
            (p, ps + [p]);
        if !profile.notificationsEnabled then Run(Skipped(DisabledMessage), None, xs, ps')
        else
          var email := ReminderEmail(x, now);
          if !delivered then Run(Retry, Some(email), xs, ps')
          else
            Run(Success(interviewId, u.username, x.application.companyName, x.interviewTypeDisplay),
                Some(email), xs[k := x.(reminderSent := true)], ps')
  }

  /** Every user that gets as far as the notification check has a profile
      afterwards, and the notification setting decides between skipping
      and sending. */
  lemma RemindProfileCheck(xs: seq<Interview>, ps: seq<Profile>, defaults: ProfileDefaults,
                           interviewId: int, now: Instant, delivered: bool)
    requires FindInterview(xs, interviewId).Some?
    requires !xs[FindInterview(xs, interviewId).value].reminderSent
    ensures var u := xs[FindInterview(xs, interviewId).value].application.user.id;
      var run := Remind(xs, ps, defaults, interviewId, now, delivered);
      && FindProfile(run.profiles, u).Some?
      && (FindProfile(ps, u).Some? ==> run.profiles == ps)
      && (FindProfile(ps, u).None? ==> run.profiles == ps + [Profile(u, defaults.notificationsEnabled, defaults.reminderDaysBefore)])
      && (run.outcome == Skipped(DisabledMessage) <==> !run.profiles[FindProfile(run.profiles, u).value].notificationsEnabled)
      && (run.email.Some? <==> run.profiles[FindProfile(run.profiles, u).value].notificationsEnabled)
  {
    var u := xs[FindInterview(xs, interviewId).value].application.user.id;
    if FindProfile(ps, u).None? {
      var p := Profile(u, defaults.notificationsEnabled, defaults.reminderDaysBefore);
      assert (ps + [p])[|ps|] == p;
      assert FindProfile(ps + [p], u) == Some(|ps|);
    }
  }

  /** Repeating a successful reminder for the same interview is skipped as
      already sent and changes nothing, whatever the time and the mail
      server do the second time. */
  lemma RemindIdempotent(xs: seq<Interview>, ps: seq<Profile>, defaults: ProfileDefaults,
                         interviewId: int, now: Instant, delivered: bool, later: Instant, delivered2: bool)
    requires Remind(xs, ps, defaults, interviewId, now, delivered).outcome.Success?
    ensures var first := Remind(xs, ps, defaults, interviewId, now, delivered);
      var again := Remind(first.interviews, first.profiles, defaults, interviewId, later, delivered2);
      && again.outcome == Skipped(AlreadySentMessage)
      && again.email == None
      && again.interviews == first.interviews
      && again.profiles == first.profiles
  {
    var first := Remind(xs, ps, defaults, interviewId, now, delivered);
    var k := FindInterview(xs, interviewId).value;
    var ys := first.interviews;
    assert ys == xs[k := xs[k].(reminderSent := true)];
    assert ys[k].id == interviewId;
    assert forall j :: 0 <= j < k ==> ys[j].id == xs[j].id;
    assert FindInterview(ys, interviewId) == Some(k);
  }

  /** The database the reminder tasks read and write. */
  class ReminderDb {
    var interviews: seq<Interview>
    var profiles: seq<Profile>
    const defaults: ProfileDefaults

    constructor(interviews0: seq<Interview>, profiles0: seq<Profile>, defaults0: ProfileDefaults)
      ensures interviews == interviews0 && profiles == profiles0 && defaults == defaults0
    {
      interviews := interviews0;
      profiles := profiles0;
      defaults := defaults0;
    }

    /** `send_interview_reminder(interview_id)` run at `now`; `delivered` is
        whether `send_mail` succeeds. */
    method SendInterviewReminder(interviewId: int, now: Instant, delivered: bool)
      returns (outcome: Outcome, email: Option<Email>)
      modifies this
      ensures var run := Remind(old(interviews), old(profiles), defaults, interviewId, now, delivered);
        outcome == run.outcome && email == run.email && interviews == run.interviews && profiles == run.profiles
    {
      var found := FindInterview(interviews, interviewId);
      if found.None? {
        return Error(NotFoundMessage(interviewId)), None;
      }
      var k := found.value;
      var interview := interviews[k];
      if interview.reminderSent {
        return Skipped(AlreadySentMessage), None;
      }
      var user := interview.application.user;
      var profile;
      var j := FindProfile(profiles, user.id);
      if j.Some? {
        profile := profiles[j.value];
      } else {
        profile := Profile(user.id, defaults.notificationsEnabled, defaults.reminderDaysBefore);
        profiles := profiles + [profile];
      }
      if !profile.notificationsEnabled {
        return Skipped(DisabledMessage), None;
      }
      email := Some(ReminderEmail(interview, now));
      if !delivered {
        return Retry, email;
      }
      interviews := interviews[k := interview.(reminderSent := true)];
      outcome := Success(interviewId, user.username, interview.application.companyName, interview.interviewTypeDisplay);
    }

    /** `check_upcoming_interviews()` at `now`: the ids handed to
        `send_interview_reminder.delay`, profile by profile and, within a
        profile, in the order the interviews are stored, and the counter it
        returns. */
    method CheckUpcomingInterviews(now: Instant) returns (queued: seq<int>, remindersQueued: nat)
      ensures queued == Queued(profiles, interviews, now)
      ensures remindersQueued == |queued|
    {
      queued := [];
      remindersQueued := 0;
      var i := 0;
      while i < |profiles|
        invariant 0 <= i <= |profiles|
        invariant queued == Queued(profiles[..i], interviews, now)
        invariant remindersQueued == |queued|
      {
        var profile := profiles[i];
        assert profiles[..i + 1][..i] == profiles[..i];
        if profile.notificationsEnabled {
          var j := 0;
          var mine := [];
          while j < |interviews|
            invariant 0 <= j <= |interviews|
            invariant mine == DueFor(profile, interviews[..j], now)
            invariant remindersQueued == |queued| + |mine|
          {
            var interview := interviews[j];
            assert interviews[..j + 1][..j] == interviews[..j];
            if Due(profile, interview, now) {
              mine := mine + [interview.id];
              remindersQueued := remindersQueued + 1;
            }
            j := j + 1;
          }
          assert interviews[..j] == interviews;
          queued := queued + mine;
        }
        i := i + 1;
      }
      assert profiles[..i] == profiles;
    }
  }

  // ---------------------------------------------------------------------------
  // check_upcoming_interviews
  // ---------------------------------------------------------------------------

  /** The filter applied for profile `p`: the interview is the profile
      user's, falls on the calendar day `reminder_days_before` days from
      now, has had no reminder, is still pending and its application is in
      progress. */
  predicate Due(p: Profile, x: Interview, now: Instant) {
    && x.application.user.id == p.userId
    && DateOf(x.scheduledDate) == DateOf(now + Days(p.reminderDaysBefore))
    && !x.reminderSent
    && x.outcome == "pending"
    && x.application.applicationStatus == "in_progress"
  }

  /** Ids of the interviews due for profile `p`, in database order. */
  function DueFor(p: Profile, xs: seq<Interview>, now: Instant): seq<int> {
    if xs == [] then []
    else DueFor(p, xs[..|xs| - 1], now) + (if Due(p, xs[|xs| - 1], now) then [xs[|xs| - 1].id] else [])
  }

  /** Ids queued over all profiles with notifications enabled, profile by
      profile. */
  function Queued(ps: seq<Profile>, xs: seq<Interview>, now: Instant): seq<int> {
    if ps == [] then []
    else Queued(ps[..|ps| - 1], xs, now) + (if ps[|ps| - 1].notificationsEnabled then DueFor(ps[|ps| - 1], xs, now) else [])
  }

  lemma {:induction false} DueForMembers(p: Profile, xs: seq<Interview>, now: Instant, id: int)
    ensures id in DueFor(p, xs, now) <==> exists j :: 0 <= j < |xs| && xs[j].id == id && Due(p, xs[j], now)
  {
    if xs != [] {
      var init := xs[..|xs| - 1];
      DueForMembers(p, init, now, id);
      if exists j :: 0 <= j < |init| && init[j].id == id && Due(p, init[j], now) {
        var j :| 0 <= j < |init| && init[j].id == id && Due(p, init[j], now);
        assert xs[j] == init[j];
      }
      if exists j :: 0 <= j < |xs| && xs[j].id == id && Due(p, xs[j], now) {
        var j :| 0 <= j < |xs| && xs[j].id == id && Due(p, xs[j], now);
        if j < |init| {
          assert init[j] == xs[j];
        }
      }
    }
  }

  /** An id is queued exactly when some profile with notifications enabled
      has a due interview with that id. */
  lemma {:induction false} QueuedMembers(ps: seq<Profile>, xs: seq<Interview>, now: Instant, id: int)
    ensures id in Queued(ps, xs, now) <==>
      exists i, j :: 0 <= i < |ps| && 0 <= j < |xs| && ps[i].notificationsEnabled && xs[j].id == id && Due(ps[i], xs[j], now)
  {
    if ps != [] {
      var init := ps[..|ps| - 1];
      var last := ps[|ps| - 1];
      QueuedMembers(init, xs, now, id);
      DueForMembers(last, xs, now, id);
      if exists i, j :: 0 <= i < |init| && 0 <= j < |xs| && init[i].notificationsEnabled && xs[j].id == id && Due(init[i], xs[j], now) {
        var i, j :| 0 <= i < |init| && 0 <= j < |xs| && init[i].notificationsEnabled && xs[j].id == id && Due(init[i], xs[j], now);
        assert ps[i] == init[i];
      }
      if exists i, j :: 0 <= i < |ps| && 0 <= j < |xs| && ps[i].notificationsEnabled && xs[j].id == id && Due(ps[i], xs[j], now) {
        var i, j :| 0 <= i < |ps| && 0 <= j < |xs| && ps[i].notificationsEnabled && xs[j].id == id && Due(ps[i], xs[j], now);
        if i < |init| {
          assert init[i] == ps[i];
        }
      }
    }
  }

  /** The reminder day is today's date plus `reminder_days_before`: a due
      interview is scheduled exactly that many calendar days after the day
      of the run. */
  lemma DueDate(p: Profile, x: Interview, now: Instant)
    requires Due(p, x, now)
    ensures DateOf(x.scheduledDate) == DateOf(now) + p.reminderDaysBefore
  {
    DateOfShift(now, p.reminderDaysBefore);
  }

  /** A queued interview, reminded before anything else changes, gets past
      the "not found" and "already sent" checks when interview ids are
      distinct. */
  lemma QueuedIsRemindable(ps: seq<Profile>, xs: seq<Interview>, now: Instant, id: int,
                           defaults: ProfileDefaults, later: Instant, delivered: bool)
    requires forall a, b :: 0 <= a < b < |xs| ==> xs[a].id != xs[b].id
    requires id in Queued(ps, xs, now)
    ensures var run := Remind(xs, ps, defaults, id, later, delivered);
      !run.outcome.Error? && run.outcome != Skipped(AlreadySentMessage)
  {
    QueuedMembers(ps, xs, now, id);
    var i, j :| 0 <= i < |ps| && 0 <= j < |xs| && ps[i].notificationsEnabled && xs[j].id == id && Due(ps[i], xs[j], now);
    var k := FindInterview(xs, id).value;
    assert k == j;
  }
}
