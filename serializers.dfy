/** Field validators and computed fields of the REST serializers. A
    validator either hands its value back unchanged or raises a validation
    error, modelled as `Err` with the error text. */
module Serializers {
  import opened Wrappers
  import opened Clock
  import opened Models

  // ---------------------------------------------------------------------------
  // UserProfileSerializer
  // ---------------------------------------------------------------------------

  const ReminderDaysError: string := "Reminder days must be between 1 and 7."

  /** Reminders may be sent 1 to 7 days ahead. */
  function ValidateReminderDaysBefore(value: int): (r: Result<int, string>)
    ensures r.Ok? <==> 1 <= value <= 7
    ensures r.Ok? ==> r.value == value
    ensures r.Err? ==> r.error == ReminderDaysError
  {
    if value < 1 || value > 7 then Err(ReminderDaysError) else Ok(value)
  }

  // ---------------------------------------------------------------------------
  // InterviewRoundSerializer
  // ---------------------------------------------------------------------------

  const DurationError: string := "Duration must be between 1 and 480 minutes."

  /** A round lasts 1 to 480 minutes, or has no duration at all. */
  function ValidateDurationMinutes(value: Option<int>): (r: Result<Option<int>, string>)
    ensures r.Ok? <==> value.None? || 1 <= value.value <= 480
    ensures r.Ok? ==> r.value == value
    ensures r.Err? ==> r.error == DurationError
  {
    if value.Some? && (value.value < 1 || value.value > 480) then Err(DurationError) else Ok(value)
  }

  // ---------------------------------------------------------------------------
  // InterviewSerializer
  // ---------------------------------------------------------------------------

  const PastDateError: string := "Interview date cannot be in the past."

  /** `instance` is the interview being updated, `None` on create. Only a new
      interview is refused a date before `now`. */
  function ValidateInterviewDate(value: Option<Instant>, instance: Option<Interview>, now: Instant)
    : (r: Result<Option<Instant>, string>)
    ensures r.Ok? <==> value.None? || instance.Some? || now <= value.value
    ensures r.Ok? ==> r.value == value
    ensures r.Err? ==> r.error == PastDateError
  {
    if value.None? then Ok(value)
    else if instance.None? && value.value < now then Err(PastDateError)
    else Ok(value)
  }

  /** Every validator is idempotent: what it accepted once it accepts again,
      unchanged. */
  lemma ValidatorsIdempotent(days: int, duration: Option<int>, date: Option<Instant>,
                             instance: Option<Interview>, now: Instant)
    ensures var r := ValidateReminderDaysBefore(days);
            r.Ok? ==> ValidateReminderDaysBefore(r.value) == r
    ensures var r := ValidateDurationMinutes(duration);
            r.Ok? ==> ValidateDurationMinutes(r.value) == r
    ensures var r := ValidateInterviewDate(date, instance, now);
            r.Ok? ==> ValidateInterviewDate(r.value, instance, now) == r
  {
  }

  /** An update is never refused for its date; a create is refused exactly
      for a date strictly before `now`. */
  lemma InterviewDateCreateVersusUpdate(t: Instant, existing: Interview, now: Instant)
    ensures ValidateInterviewDate(Some(t), Some(existing), now).Ok?
    ensures ValidateInterviewDate(Some(t), None, now).Err? <==> t < now
    ensures ValidateInterviewDate(Some(now), None, now).Ok?
  {
  }

  /** Length of the "upcoming" window. */
  const UpcomingWindowDays: int := 7

  /** `get_is_upcoming`: the interview has a date and it lies in the
      window that starts at `now` and ends seven days later, both ends
      included. */
  function IsUpcoming(i: Interview, now: Instant): (b: bool)
    ensures i.interviewDate.None? ==> !b
    ensures i.interviewDate.Some? ==>
              (b <==> now <= i.interviewDate.value <= now + Days(UpcomingWindowDays))
  {
    match i.interviewDate
    case None => false
    case Some(t) => now <= t <= now + Days(UpcomingWindowDays)
  }

  /** Both ends of the window count; one microsecond outside does not. */
  lemma UpcomingWindowInclusive(i: Interview, now: Instant)
    ensures IsUpcoming(i.(interviewDate := Some(now)), now)
    ensures IsUpcoming(i.(interviewDate := Some(now + Days(7))), now)
    ensures !IsUpcoming(i.(interviewDate := Some(now - 1)), now)
    ensures !IsUpcoming(i.(interviewDate := Some(now + Days(7) + 1)), now)
  {
  }

  /** `get_days_in_pipeline`: whole days from the application date to
      `today`, or nothing when no application date is recorded. */
  function DaysInPipeline(i: Interview, today: Date): (r: Option<int>)
    ensures r.None? <==> i.applicationDate.None?
    ensures r.Some? ==> i.applicationDate.value + r.value == today
  {
    match i.applicationDate
    case None => None
    case Some(d) => Some(today - d)
  }

  /** InterviewSerializer.Meta.fields. */
  const InterviewFields: seq<string> := [
    "id", "company_name", "position", "interview_date", "interview_type",
    "status", "location", "interview_stage", "application_status",
    "pipeline_stage", "application_date", "notes", "created_at", "updated_at",
    "days_in_pipeline", "is_upcoming"]

  /** InterviewWithRoundsSerializer.Meta.fields: the base fields, in order,
      then "rounds", which the base list does not already hold. */
  function InterviewWithRoundsFields(): (fs: seq<string>)
    ensures |fs| == |InterviewFields| + 1
    ensures fs[..|InterviewFields|] == InterviewFields
    ensures fs[|InterviewFields|] == "rounds"
    ensures "rounds" !in InterviewFields
  {
    InterviewFields + ["rounds"]
  }
}
