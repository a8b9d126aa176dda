/** The records the interview views and serializers read. The field set is
    the one views.py and serializers.py use (interview_date, status,
    interview_stage, application_status, application_date, created_at),
    which is newer than the one declared in models.py. */
module Models {
  import opened Wrappers
  import opened Clock

  type UserId = int
  type InterviewId = int

  /** One tracked job application with its (optional) scheduled interview. */
  datatype Interview = Interview(
    id: InterviewId,
    user: UserId,
    companyName: string,
    position: string,
    interviewDate: Option<Instant>,
    interviewType: string,
    status: string,
    location: string,
    interviewStage: string,
    applicationStatus: string,
    applicationDate: Option<Date>,
    createdAt: Instant)

  /** One round (stage) of an interview process; `interview` is the id of
      the interview it belongs to. */
  datatype InterviewRound = InterviewRound(
    interview: InterviewId,
    stage: string,
    scheduledDate: Option<Instant>,
    durationMinutes: Option<int>,
    outcome: string)
}
