# Interview tracker backend — a Dafny model

This project models the behaviour of the Django backend of an
interview-tracking application. Users record job applications and their
interviews. The backend serves them over a REST API and e-mails interview
reminders from Celery tasks. The model covers:

- the per-user querysets and guarded creation of the interview and round
  view sets, and the `dashboard_stats` aggregation: counts per stage and per
  status, three widgets (upcoming, awaiting response, needs review) and the
  summary figures (`Views`);
- the serializer validators and the computed fields `is_upcoming` and
  `days_in_pipeline` (`Serializers`);
- the reminder tasks: the "time until" phrase, the decision sequence of
  `send_interview_reminder` with its `reminder_sent` flag, and the
  selection and counter of `check_upcoming_interviews` (`Tasks`);
- the security log helpers: client address, user identifier, user agent
  and the four log lines (`Security`);
- the cache keys of the two rate-limit throttles (`Throttles`);
- the middleware that exempts `/api/` requests from the CSRF check
  (`Middleware`).

Time is UTC throughout, because the settings use `TIME_ZONE = "UTC"` and
`USE_TZ = True`. An instant is a whole number of microseconds since the
epoch, and a date is a whole number of days (`Clock`). Python's string
operations (`f"{n}"`, `split(",")[0]`, `strip()`, `upper()`, `s[:n]`)
are written out in `Text`. Querysets are sequences. `.filter` is `Filter`.
`.order_by` is `SortBy` under PostgreSQL's rule that NULL sorts above every
value. `[:5]` is `Limit`.

Where the code and the model declarations disagree, the model follows the
code. `views.py` and `serializers.py` read fields that `models.py` does not
declare (`interview_stage`, `application_status`, `application_date`), and
they treat `interview_date` as nullable, although `models.py` declares it
required. `Models.Interview` therefore carries the fields the views use.
The tasks use the shape left by the renaming migration: an interview of a
job application with `scheduled_date`, `outcome` and `reminder_sent`.
`Tasks.Interview` carries that shape.

A past interview can read as upcoming. `timedelta` keeps a negative span
as negative whole days plus a positive remainder, so a reminder computed 30
minutes after the interview says "in 23 hours"
(`Tasks.TimeUntilExamples`). The code does this as written, and the model
does the same.

A throttle key is text, and `%s` renders a user's primary key, an address
and a missing address ("None") alike, so the key no longer tells which kind
of ident it came from. A logged-in user with pk 5 shares a burst budget with
anonymous requests whose library ident is "5"
(`Throttles.BurstUserMeetsAnonymous`). A request with no address shares an
auth budget with one whose address is the text "None"
(`Throttles.AuthMissingAddressCollides`).

## Model

| member | source | states |
|---|---|---|
| Clock.DateOf | backend/interviews/tasks.py:148 | the date of an instant is the day whose span of microseconds contains it |
| Clock.DateOfShift | backend/interviews/tasks.py:139-148 | adding `timedelta(days=n)` to an instant moves its date by exactly n days |
| Clock.Normalize | backend/interviews/tasks.py:64 | the difference of two datetimes, held as days, seconds in [0, 86400) and microseconds in [0, 10^6), denotes the same span |
| Clock.NormalizeUnique | backend/interviews/tasks.py:64 | that normal form is the only one with in-range seconds and microseconds |
| Text.NatToString | backend/interviews/security.py:36 | `f"{n}"` is a non-empty string of digits without a leading zero |
| Text.ParseNatToString | backend/interviews/security.py:36 | the rendered number reads back as the number, so rendering is injective |
| Text.DigitsThenTailUnique | backend/interviews/tasks.py:67 | a digit run followed by a non-digit splits in only one way |
| Text.Take | backend/interviews/security.py:41 | `s[:n]` is a prefix of at most n characters, all of s when it is short enough |
| Text.FirstField | backend/interviews/security.py:30 | `split(",")[0]` is the longest prefix without a comma, ending at the string's end or at a comma |
| Text.FirstFieldUnique | backend/interviews/security.py:30 | those properties determine `split(",")[0]` |
| Text.Strip | backend/interviews/security.py:30 | `strip()` removes exactly the leading and trailing whitespace and keeps the middle |
| Text.StripIdempotent | backend/interviews/security.py:30 | stripping twice is stripping once |
| Text.Upper | backend/interviews/security.py:45 | `upper()` maps each character to its upper case and leaves no lower-case ASCII letter |
| Serializers.ValidateReminderDaysBefore | backend/interviews/serializers.py:30-36 | accepted exactly for 1..7 and returned unchanged; otherwise the 1-to-7 error text |
| Serializers.ValidateDurationMinutes | backend/interviews/serializers.py:140-146 | accepted exactly for None or 1..480 and returned unchanged; otherwise the 1-to-480 error text |
| Serializers.ValidateInterviewDate | backend/interviews/serializers.py:96-109 | accepted exactly when the date is None, the serializer updates an instance, or the date is not before now; otherwise the past-date error |
| Serializers.ValidatorsIdempotent | backend/interviews/serializers.py:30-36 | each validator accepts its own output again, unchanged |
| Serializers.InterviewDateCreateVersusUpdate | backend/interviews/serializers.py:104-108 | an update is never refused for its date; a create is refused exactly for dates strictly before now |
| Serializers.IsUpcoming | backend/interviews/serializers.py:85-94 | false without a date; otherwise true exactly when the date lies in [now, now + 7 days] |
| Serializers.UpcomingWindowInclusive | backend/interviews/serializers.py:94 | both ends of the window count and one microsecond outside either does not |
| Serializers.DaysInPipeline | backend/interviews/serializers.py:76-83 | None exactly without an application date; otherwise the days that, added to it, give today |
| Serializers.InterviewWithRoundsFields | backend/interviews/serializers.py:157-158 | the base field list in order, then "rounds", which the base list lacks |
| Views.Filter | backend/interviews/views.py:149 | a filtered queryset is no longer than the original and holds only satisfying elements taken from it |
| Views.FilterMultiset | backend/interviews/views.py:149 | filtering keeps each satisfying element exactly as often as it occurs and drops the rest |
| Views.FilterMembers | backend/interviews/views.py:149 | an element is in the filtered queryset exactly when it is in the original and satisfies the condition |
| Views.FilterTwice | backend/interviews/views.py:164-169 | filtering the user's queryset again keeps exactly what satisfies both conditions |
| Views.CountByCode | backend/interviews/views.py:153-161 | the dictionary has one key per declared choice code, mapped to the number of interviews with that code |
| Views.SortBy | backend/interviews/views.py:169 | `order_by` yields a permutation of the queryset that is sorted under the PostgreSQL NULL placement |
| Views.InOrderTransitive | backend/interviews/views.py:190 | each of the three orderings is transitive, so sorting under it is consistent |
| Views.Limit | backend/interviews/views.py:181 | `[:n]` is the first min(n, length) elements |
| Views.PrefixOfSorted | backend/interviews/views.py:181 | the first n of a sorted queryset are sorted and precede everything left out |
| Views.WidgetSelection | backend/interviews/views.py:164-182 | a widget lists min(5, count) matching interviews of the queryset, sorted, with no omitted match that sorts before a listed one |
| Views.WidgetsDisjoint | backend/interviews/views.py:163-210 | no interview is in two of the three widget querysets |
| Views.UpcomingAgreesWithSerializer | backend/interviews/views.py:164-169 | the upcoming filter is `is_upcoming` narrowed to scheduled interviews of in-progress applications |
| Views.ToUpcomingEntry | backend/interviews/views.py:172-182 | an upcoming entry carries the interview's id and date |
| Views.ToAwaitingEntry | backend/interviews/views.py:192-202 | `days_waiting` is None exactly without an application date and agrees with `days_in_pipeline` |
| Views.ToReviewEntry | backend/interviews/views.py:212-222 | `days_ago` is the number of calendar days from the interview's date to today's, so it is never negative for a past interview |
| Views.UpcomingEntries | backend/interviews/views.py:172-182 | one entry per listed interview, in the same order |
| Views.AwaitingEntries | backend/interviews/views.py:192-202 | one entry per listed interview, in the same order |
| Views.ReviewEntries | backend/interviews/views.py:212-222 | one entry per listed interview, in the same order |
| Views.DatedWidgets | backend/interviews/views.py:177 | the upcoming and needs-review widgets hold only interviews with a date, so `isoformat()` applies |
| Views.DistinctCodesBound | backend/interviews/views.py:236-241 | the counts of distinct status codes add up to at most the number of interviews |
| Views.GetOrZeroOfCounts | backend/interviews/views.py:229 | `.get(code, 0)` on the status counts is the count of the code when declared, 0 otherwise |
| Views.RateBounds | backend/interviews/views.py:242 | a ratio of offers to a larger resolved count, times 100, lies in [0, 100] |
| Views.SummaryFigures | backend/interviews/views.py:226-242 | offers count offer and accepted, active counts in_progress, offers never exceed resolved, active plus resolved never exceeds the total, and the success rate is in [0, 100] and 0 when nothing is resolved |
| Views.DashboardStats | backend/interviews/views.py:139-257 | every figure and widget is computed from the requesting user's interviews only, per the filters, orders and limits of the view |
| Views.WidgetsAreOwn | backend/interviews/views.py:149 | every listed interview belongs to the requesting user and satisfies its widget's filter |
| Views.FilterAppend | backend/interviews/views.py:149 | filtering two stored runs one after the other keeps what filtering each keeps, in that order |
| Views.FilterNone | backend/interviews/views.py:149 | a filter that no entry meets keeps nothing |
| Views.OthersDropOut | backend/interviews/views.py:149 | entries that fail a filter drop out wherever they stand among the others |
| Views.CountsIgnoreOtherUsers | backend/interviews/views.py:149 | other users' interviews, stored anywhere among the user's own, change neither the user's queryset nor any count taken from it |
| Views.FindOwned | backend/interviews/views.py:85 | finds an interview exactly when one with that id belongs to the user |
| Views.RoundsOf | backend/interviews/views.py:77 | the rounds listed are exactly the stored rounds of the user's interviews |
| Views.InterviewStore.QuerySet | backend/interviews/views.py:45-50 | the queryset holds all the user's interviews and no one else's |
| Views.InterviewStore.RoundQuerySet | backend/interviews/views.py:73-77 | the listed rounds are exactly the stored rounds that belong to an interview of the user |
| Views.InterviewStore.CreateInterview | backend/interviews/views.py:52-57 | the interview is stored with the requesting user as owner and then appears in that user's queryset |
| Views.InterviewStore.CreateRound | backend/interviews/views.py:79-89 | the round is stored exactly when the requested interview is the user's; otherwise PermissionDenied with its message and nothing stored |
| Tasks.ReminderEmail | backend/interviews/tasks.py:86-97 | the subject starts "Interview Reminder: " and the company name and ends " - " and the interview type; the recipient is the applicant's address; the phrase is the time-until text for the time left |
| Tasks.TimeUntilOf | backend/interviews/tasks.py:63-72 | whole days when the span is at least a day; otherwise hours (1 to 23) exactly when the whole seconds of the day remainder exceed 3600 (at least 3601 s); otherwise very soon |
| Tasks.TimeUntilText | backend/interviews/tasks.py:66-72 | the phrase starts "in " for days and hours and ends in "s" exactly when the count is above 1 |
| Tasks.TimeUntilTextInjective | backend/interviews/tasks.py:66-72 | different branches or counts never give the same phrase |
| Tasks.TimeUntilExamples | backend/interviews/tasks.py:64-72 | the boundaries on concrete spans: exactly 3600 s is very soon, 30 minutes in the past is "in 23 hours" |
| Tasks.FindInterview | backend/interviews/tasks.py:35-42 | finds the first interview with that id, and none exactly when no interview has it |
| Tasks.FindProfile | backend/interviews/tasks.py:53-56 | finds the first profile of that user, and none exactly when the user has none |
| Tasks.Remind | backend/interviews/tasks.py:33-115 | decision order: missing → error, already sent → skipped, notifications off → skipped, otherwise the e-mail; success exactly when the send succeeds; success sets the flag on exactly the found interview, nothing else changes it; a missing or already reminded interview leaves the profiles as they were |
| Tasks.RemindProfileCheck | backend/interviews/tasks.py:53-60 | a missing profile is created with the defaults and kept; its setting decides between skipping and sending |
| Tasks.RemindIdempotent | backend/interviews/tasks.py:44-47 | repeating a successful reminder is skipped as already sent and changes nothing |
| Tasks.ReminderDb.SendInterviewReminder | backend/interviews/tasks.py:17-115 | one run on the stored interviews and profiles returns and stores what Remind describes |
| Tasks.ReminderDb.CheckUpcomingInterviews | backend/interviews/tasks.py:118-164 | the queued ids are those of Queued on the stored profiles and interviews, and the counter equals their number |
| Tasks.DueForMembers | backend/interviews/tasks.py:146-152 | an id is selected for a profile exactly when one of its interviews passes every filter condition |
| Tasks.QueuedMembers | backend/interviews/tasks.py:135-156 | an id is queued exactly when a profile with notifications enabled has a due interview with that id |
| Tasks.DueDate | backend/interviews/tasks.py:139-148 | a due interview is scheduled exactly `reminder_days_before` calendar days after today |
| Tasks.QueuedIsRemindable | backend/interviews/tasks.py:146-155 | with distinct ids, a queued interview gets past the not-found and already-sent checks |
| Security.ForwardedClient | backend/interviews/security.py:30 | the first forwarded entry holds no comma and no surrounding whitespace |
| Security.ClientIp | backend/interviews/security.py:27-32 | a non-empty X-Forwarded-For gives its first entry stripped; otherwise REMOTE_ADDR; otherwise "unknown" |
| Security.ClientIpIgnoresLaterHops | backend/interviews/security.py:28-30 | entries after the first comma and REMOTE_ADDR never change the logged address |
| Security.ClientIpSingleAddress | backend/interviews/security.py:28-30 | a single address without blanks is logged unchanged |
| Security.ClientIpBlankHeader | backend/interviews/security.py:28-30 | a header blank before its first comma logs an empty address without falling back |
| Security.UserIdentifier | backend/interviews/security.py:35-38 | "user:…" exactly for a logged-in user, "anonymous" otherwise |
| Security.UserIdentifierInjective | backend/interviews/security.py:36 | two logged-in users get the same identifier only with the same id and username |
| Security.UserAgent | backend/interviews/security.py:41 | at most 100 characters, a prefix of the header, the whole header when short, "unknown" when absent |
| Security.AuthEventHead | backend/interviews/security.py:45 | the auth line starts with the event type, status and client, and ends with the user agent |
| Security.LogAuthEvent | backend/interviews/security.py:17-54 | info on success and warning on failure; details appended exactly when non-empty |
| Security.LogAuthEventDetails | backend/interviews/security.py:47-48 | non-empty details extend the line written without them by " \| Details: …" |
| Security.LogAuthEventStatusDiffers | backend/interviews/security.py:44-45 | a success line and a failure line are never equal |
| Security.PermissionDeniedHead | backend/interviews/security.py:76 | the line starts with the client and ends with the resource |
| Security.LogPermissionDenied | backend/interviews/security.py:57-80 | warning level; the reason appended exactly when non-empty |
| Security.LogPermissionDeniedReason | backend/interviews/security.py:76-78 | a non-empty reason extends the line written without it by " \| Reason: " and the reason; different reasons give different lines |
| Security.LogRateLimited | backend/interviews/security.py:83-98 | warning level; the client first and the endpoint last, with nothing between them; no user field |
| Security.LogSuspiciousActivity | backend/interviews/security.py:101-121 | error level; type and client first, then the user identifier, details last even when empty |
| Throttles.CacheKeyInjective | backend/interviews/throttles.py:34-37 | within one scope, two keys are equal exactly when their rendered idents are |
| Throttles.AddressText | backend/interviews/throttles.py:34-37 | `%s` renders a client address as itself and a missing one as "None" |
| Throttles.AuthIdent | backend/interviews/throttles.py:27-32 | the first forwarded entry when the header is non-empty, otherwise REMOTE_ADDR, which may be missing |
| Throttles.AuthIdentAgreesWithLog | backend/interviews/throttles.py:28-32 | the throttle and the security log pick the same client; when the throttle finds none the log writes "unknown" |
| Throttles.AuthCacheKey | backend/interviews/throttles.py:20-37 | the "auth" key ends in the client address, or in "None" when there is none |
| Throttles.BurstIdent | backend/interviews/throttles.py:51-54 | the rendered ident is the user's pk in decimal when logged in, otherwise the library ident |
| Throttles.BurstCacheKey | backend/interviews/throttles.py:48-59 | the "burst" key ends in the rendered ident |
| Throttles.AuthKeysShared | backend/interviews/throttles.py:28-37 | two requests share an auth key exactly when their addresses render alike; the same address always shares |
| Throttles.AuthMissingAddressCollides | backend/interviews/throttles.py:32-37 | a request with no address shares its key with one whose REMOTE_ADDR is the text "None" |
| Throttles.BurstKeysShared | backend/interviews/throttles.py:50-59 | two requests share a burst key exactly when their rendered idents agree; two logged-in users exactly when they are the same user; two anonymous requests exactly when their library idents agree |
| Throttles.BurstUserMeetsAnonymous | backend/interviews/throttles.py:51-59 | the user with pk 5 shares a burst key with an anonymous request whose library ident is "5" |
| Throttles.ScopesSeparate | backend/interviews/throttles.py:20 | an auth key never equals a burst key |
| Middleware.ApiPathExtends | backend/config/middleware.py:27 | every path below an API path is an API path |
| Middleware.ApiPathExamples | backend/config/middleware.py:27 | the match is case-sensitive and needs the trailing slash: "/api" and "/API/x" do not match |
| Middleware.Downstream.GetResponse | backend/config/middleware.py:29 | the rest of the chain records the request it is handed and answers with its reply |
| Middleware.DisableCsrfForApi.constructor | backend/config/middleware.py:21-22 | the middleware keeps the `get_response` it is built with |
| Middleware.DisableCsrfForApi.Call | backend/config/middleware.py:24-29 | the flag is set on API paths and left unchanged elsewhere; the path is kept; the chain sees the request exactly once; its response is returned as is |
| Middleware.ExemptOnlyApi | backend/config/middleware.py:27-29 | a login request reaches the view exempt and an admin request reaches it still checked |

## Left out

- Database access, prefetching and the ORM are modelled on sequences. Ids are not assumed unique; the first match is used.
- Views.DashboardStats: `success_rate` is kept unrounded, because `round(x, 1)` works on floating point. The view returns an int 0 when nothing is resolved; the model returns 0.0.
- Views.DashboardStats: the `isoformat()` strings of the widget entries are kept as instants and dates.
- Views.InOrderTransitive: the database's order among equal sort keys is unspecified, so the widgets are stated as sorted with no better candidate left out, not as one fixed sequence.
- Views.DashboardStats: takes the declared choice codes of `INTERVIEW_STAGE_CHOICES` and `APPLICATION_STATUS_CHOICES` as parameters, so it holds for any choice list.
- Views.ToAwaitingEntry: the view reads the clock again for `days_waiting` of each listed entry, up to five readings; one `today` parameter stands for all of them, so two entries read across midnight are not modelled.
- `serializer.save()` in the round view is modelled as appending the round; the serializer's own field checks are the validators in `Serializers`.
- The `user_profile` and `send_test_reminder` views and the `send_test_email` task are not part of this model.
- Celery queuing, `.delay`, `self.retry`, its countdown and `max_retries` become values: the queued ids and the `Retry` outcome. Tasks.ReminderDb.SendInterviewReminder models one run, not the retries.
- `send_mail` and template rendering are left out. Whether the send succeeds is the `delivered` parameter. The e-mail keeps only its subject, its recipient and the phrase.
- Tasks.Interview: `scheduled_date` is a plain instant. No declaration of the field is part of this model, so its nullability is not known here; had a stored interview no date, `scheduled_date - now` would raise in the reminder task. The model assumes every stored interview has a date.
- Tasks.RemindIdempotent: task runs are taken one after another. Two concurrent runs for one interview can both pass the `reminder_sent` check before either saves the flag, and both send the e-mail; that interleaving is not modelled.
- Tasks.ReminderDb.CheckUpcomingInterviews: the database returns interviews ordered by `scheduled_date`, then `created_at`, and profiles in no stated order; the model walks both in stored order, so the order of the queued ids is the stored one.
- Tasks.Remind: the `UserProfile` field defaults are the `ProfileDefaults` parameter.
- Logging calls, log handlers and their configuration are left out. Each log helper returns its level and message.
- Text.Upper: maps only the ASCII letters a–z, because Python's full Unicode case mapping is not modelled.
- Throttles.AuthCacheKey: DRF's default `cache_format` "throttle_%(scope)s_%(ident)s" is assumed.
- Throttles.BurstCacheKey: DRF's `get_ident` result is the `libraryIdent` parameter.
- Middleware.Downstream.GetResponse: the rest of the middleware chain and the view are not modelled. `Downstream` records what it is handed and returns a fixed reply.
- Settings, migrations, admin configuration, URL routing and the authentication views are configuration and are not modelled.
- The React token-refresh client is not modelled.
