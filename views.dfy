/** The interview API views: per-user querysets, round creation guarded by
    ownership, and the dashboard aggregation. Querysets are sequences;
    `.filter(...)` is Filter, `.order_by(...)` is SortBy under PostgreSQL's
    ordering (NULL sorts above every value) and `[:5]` is Limit. */
module Views {
  import opened Wrappers
  import opened Clock
  import opened Models
  import Serializers

  // ---------------------------------------------------------------------------
  // Filtering
  // ---------------------------------------------------------------------------

  /** The two choice fields the dashboard counts by. */
  datatype Field = InterviewStage | ApplicationStatus

  function CodeOf(i: Interview, f: Field): string {
    match f
    case InterviewStage => i.interviewStage
    case ApplicationStatus => i.applicationStatus
  }

  /** The `.filter(...)` conditions the views use. */
  datatype Criterion =
    | OwnedBy(user: UserId)
      // interview_date in [now, now + 7 days], scheduled, application in progress
    | UpcomingWindow(now: Instant)
      // no interview date, stage applied or screening, application in progress
    | AwaitingResponse
      // interview_date before now, still scheduled, application in progress
    | PastScheduled(now: Instant)
    | HasCode(field: Field, code: string)

  predicate Holds(c: Criterion, i: Interview) {
    match c
    case OwnedBy(user) => i.user == user
    case UpcomingWindow(now) =>
      && i.interviewDate.Some?
      && now <= i.interviewDate.value <= now + Days(7)
      && i.status == "scheduled"
      && i.applicationStatus == "in_progress"
    case AwaitingResponse =>
      && i.interviewDate.None?
      && i.interviewStage in ["applied", "screening"]
      && i.applicationStatus == "in_progress"
    case PastScheduled(now) =>
      && i.interviewDate.Some?
      && i.interviewDate.value < now
      && i.status == "scheduled"
      && i.applicationStatus == "in_progress"
    case HasCode(field, code) => CodeOf(i, field) == code
  }

  /** `xs.filter(c)`: the elements satisfying `c`, each as often as in `xs`,
      in their original order. */
  function Filter(xs: seq<Interview>, c: Criterion): (r: seq<Interview>)
    ensures |r| <= |xs|
    ensures forall k :: 0 <= k < |r| ==> r[k] in xs && Holds(c, r[k])
  {
    if xs == [] then []
    else (if Holds(c, xs[0]) then [xs[0]] else []) + Filter(xs[1..], c)
  }

  /** Filter keeps every element that satisfies the condition exactly as
      often as it occurs, and drops every other. */
  lemma {:induction false} FilterMultiset(xs: seq<Interview>, c: Criterion)
    ensures forall i :: multiset(Filter(xs, c))[i] == if Holds(c, i) then multiset(xs)[i] else 0
  {
    if xs != [] {
      assert xs == [xs[0]] + xs[1..];
      FilterMultiset(xs[1..], c);
    }
  }

  lemma FilterMembers(xs: seq<Interview>, c: Criterion)
    ensures forall i :: i in Filter(xs, c) <==> i in xs && Holds(c, i)
  {
    FilterMultiset(xs, c);
    assert forall i :: i in Filter(xs, c) <==> multiset(Filter(xs, c))[i] > 0;
    assert forall i :: i in xs <==> multiset(xs)[i] > 0;
  }

  /** `xs.filter(c).count()`. */
  function Count(xs: seq<Interview>, c: Criterion): nat {
    |Filter(xs, c)|
  }

  lemma {:induction false} CountUnfold(xs: seq<Interview>, c: Criterion)
    requires xs != []
    ensures Count(xs, c) == (if Holds(c, xs[0]) then 1 else 0) + Count(xs[1..], c)
  {
  }

  /** A filter never lets through something its condition excludes, and
      filtering by two conditions in turn keeps what satisfies both. */
  lemma FilterTwice(xs: seq<Interview>, a: Criterion, b: Criterion)
    ensures forall i :: multiset(Filter(Filter(xs, a), b))[i] ==
                        if Holds(a, i) && Holds(b, i) then multiset(xs)[i] else 0
  {
    FilterMultiset(xs, a);
    FilterMultiset(Filter(xs, a), b);
  }

  // ---------------------------------------------------------------------------
  // Counting per choice code (the two for-loops of dashboard_stats)
  // ---------------------------------------------------------------------------

  /** The dictionary built by iterating over a choice list: one key per
      declared code, mapped to the number of interviews carrying it. */
  method CountByCode(xs: seq<Interview>, field: Field, choices: seq<string>)
    returns (m: map<string, nat>)
    ensures m.Keys == set code | code in choices
    ensures forall code :: code in m ==> m[code] == Count(xs, HasCode(field, code))
  {
    m := map[];
    var n := 0;
    while n < |choices|
      invariant 0 <= n <= |choices|
      invariant m.Keys == set code | code in choices[..n]
      invariant forall code :: code in m ==> m[code] == Count(xs, HasCode(field, code))
    {
      var code := choices[n];
      m := m[code := Count(xs, HasCode(field, code))];
      assert choices[..n + 1] == choices[..n] + [code];
      n := n + 1;
    }
    assert choices[..n] == choices;
  }

  // ---------------------------------------------------------------------------
  // Ordering
  // ---------------------------------------------------------------------------

  /** The three `.order_by(...)` clauses of the dashboard. */
  datatype Order =
    | ByDateAscending                       // "interview_date"
    | ByDateDescending                      // "-interview_date"
    | ByApplicationThenCreatedDescending    // "-application_date", "-created_at"

  /** `a` may come before `b`. In PostgreSQL NULL sorts above every value,
      so it comes last in ascending and first in descending order. */
  predicate InOrder(o: Order, a: Interview, b: Interview) {
    match o
    case ByDateAscending =>
      (match (a.interviewDate, b.interviewDate)
       case (Some(x), Some(y)) => x <= y
       case (_, None) => true
       case (None, Some(_)) => false)
    case ByDateDescending =>
      (match (a.interviewDate, b.interviewDate)
       case (Some(x), Some(y)) => x >= y
       case (None, _) => true
       case (Some(_), None) => false)
    case ByApplicationThenCreatedDescending =>
      (match (a.applicationDate, b.applicationDate)
       case (Some(x), Some(y)) => x > y || (x == y && a.createdAt >= b.createdAt)
       case (None, None) => a.createdAt >= b.createdAt
       case (None, Some(_)) => true
       case (Some(_), None) => false)
  }

  lemma InOrderTotal(o: Order, a: Interview, b: Interview)
    ensures InOrder(o, a, b) || InOrder(o, b, a)
  {
  }

  lemma InOrderTransitive(o: Order, a: Interview, b: Interview, c: Interview)
    requires InOrder(o, a, b) && InOrder(o, b, c)
    ensures InOrder(o, a, c)
  {
  }

  predicate Sorted(o: Order, s: seq<Interview>) {
    forall j, k :: 0 <= j < k < |s| ==> InOrder(o, s[j], s[k])
  }

  function Insert(o: Order, x: Interview, s: seq<Interview>): (r: seq<Interview>)
    ensures |r| == |s| + 1
    ensures multiset(r) == multiset(s) + multiset{x}
  {
    if s == [] then [x]
    else if InOrder(o, x, s[0]) then [x] + s
    else
      assert s == [s[0]] + s[1..];
      [s[0]] + Insert(o, x, s[1..])
  }

  lemma PrependSorted(o: Order, y: Interview, t: seq<Interview>)
    requires Sorted(o, t)
    requires forall k :: 0 <= k < |t| ==> InOrder(o, y, t[k])
    ensures Sorted(o, [y] + t)
  {
    var r := [y] + t;
    forall j, k | 0 <= j < k < |r|
      ensures InOrder(o, r[j], r[k])
    {
      if j > 0 {
        assert r[j] == t[j - 1] && r[k] == t[k - 1];
      }
    }
  }

  /** Insertion adds `x` and nothing else. */
  lemma InsertElements(o: Order, x: Interview, s: seq<Interview>, y: Interview)
    requires y in Insert(o, x, s)
    ensures y == x || y in s
  {
    assert y in multiset(Insert(o, x, s));
  }

  /** Inserting into a sorted sequence keeps it sorted. */
  lemma {:induction false} InsertSorted(o: Order, x: Interview, s: seq<Interview>)
    requires Sorted(o, s)
    ensures Sorted(o, Insert(o, x, s))
  {
    if s == [] {
    } else if InOrder(o, x, s[0]) {
      forall k | 0 <= k < |s|
        ensures InOrder(o, x, s[k])
      {
        if k > 0 {
          InOrderTransitive(o, x, s[0], s[k]);
        }
      }
      PrependSorted(o, x, s);
    } else {
      InOrderTotal(o, x, s[0]);
      var rest := s[1..];
      var t := Insert(o, x, rest);
      InsertSorted(o, x, rest);
      forall k | 0 <= k < |t|
        ensures InOrder(o, s[0], t[k])
      {
        InsertElements(o, x, rest, t[k]);
        if t[k] != x {
          var i :| 0 <= i < |rest| && rest[i] == t[k];
          assert s[i + 1] == t[k];
        }
      }
      PrependSorted(o, s[0], t);
    }
  }

  /** `.order_by(o)`: a rearrangement of `s` in order `o`. */
  function SortBy(o: Order, s: seq<Interview>): (r: seq<Interview>)
    ensures |r| == |s|
    ensures multiset(r) == multiset(s)
    ensures Sorted(o, r)
  {
    if s == [] then []
    else
      assert s == [s[0]] + s[1..];
      InsertSorted(o, s[0], SortBy(o, s[1..]));
      Insert(o, s[0], SortBy(o, s[1..]))
  }

  /** `s[:n]`. */
  function Limit<T>(s: seq<T>, n: nat): (r: seq<T>)
    ensures |r| == if |s| <= n then |s| else n
    ensures r == s[..|r|]
  {
    if |s| <= n then s else s[..n]
  }

  // ---------------------------------------------------------------------------
  // Dashboard widgets
  // ---------------------------------------------------------------------------

  /** Each widget shows at most this many interviews. */
  const WidgetLimit: nat := 5

  /** `xs.filter(c).order_by(o)[:5]`. */
  function Widget(xs: seq<Interview>, c: Criterion, o: Order): seq<Interview> {
    Limit(SortBy(o, Filter(xs, c)), WidgetLimit)
  }

  /** The first `n` elements of a sorted sequence are sorted, and every
      element left behind comes after each of them. */
  lemma PrefixOfSorted(o: Order, s: seq<Interview>, n: nat)
    requires Sorted(o, s)
    ensures var w := Limit(s, n);
            && Sorted(o, w)
            && (forall i :: multiset(w)[i] <= multiset(s)[i])
            && (forall i, k :: 0 <= k < |w| && multiset(w)[i] < multiset(s)[i] ==> InOrder(o, w[k], i))
  {
    var w := Limit(s, n);
    var rest := s[|w|..];
    assert s == w + rest;
    assert multiset(s) == multiset(w) + multiset(rest);
    forall i, k | 0 <= k < |w| && multiset(w)[i] < multiset(s)[i]
      ensures InOrder(o, w[k], i)
    {
      assert i in multiset(rest);
      var j :| 0 <= j < |rest| && rest[j] == i;
      assert s[|w| + j] == i;
    }
  }

  /** A widget lists the first interviews, in order `o`, of those satisfying
      `c`: at most five, all of them satisfying `c` and taken from `xs`, and
      none left out that would have come before one that is listed. */
  lemma WidgetSelection(xs: seq<Interview>, c: Criterion, o: Order)
    ensures var w := Widget(xs, c, o);
            && |w| == (if Count(xs, c) <= WidgetLimit then Count(xs, c) else WidgetLimit)
            && Sorted(o, w)
            && (forall k :: 0 <= k < |w| ==> Holds(c, w[k]) && w[k] in xs)
            && (forall i :: multiset(w)[i] <= multiset(Filter(xs, c))[i])
            && (forall i, k :: 0 <= k < |w| && multiset(w)[i] < multiset(Filter(xs, c))[i] ==>
                  InOrder(o, w[k], i))
  {
    var f := Filter(xs, c);
    var s := SortBy(o, f);
    var w := Widget(xs, c, o);
    PrefixOfSorted(o, s, WidgetLimit);
    forall k | 0 <= k < |w|
      ensures Holds(c, w[k]) && w[k] in xs
    {
      assert w[k] == s[k];
      assert s[k] in multiset(f);
    }
  }

  /** An interview is never both upcoming and in need of review, nor
      awaiting a response and either of the two: the dated widgets split on
      `date < now`, and the awaiting widget holds only undated interviews. */
  lemma WidgetsDisjoint(xs: seq<Interview>, now: Instant)
    ensures forall i :: !(i in Filter(xs, UpcomingWindow(now)) && i in Filter(xs, PastScheduled(now)))
    ensures forall i :: !(i in Filter(xs, AwaitingResponse) && i in Filter(xs, UpcomingWindow(now)))
    ensures forall i :: !(i in Filter(xs, AwaitingResponse) && i in Filter(xs, PastScheduled(now)))
  {
    FilterMembers(xs, UpcomingWindow(now));
    FilterMembers(xs, PastScheduled(now));
    FilterMembers(xs, AwaitingResponse);
  }

  /** The dashboard's upcoming condition is the serializer's `is_upcoming`
      window, narrowed to scheduled interviews of in-progress applications. */
  lemma UpcomingAgreesWithSerializer(i: Interview, now: Instant)
    ensures Holds(UpcomingWindow(now), i) <==>
              Serializers.IsUpcoming(i, now) && i.status == "scheduled" &&
              i.applicationStatus == "in_progress"
  {
  }

  /** The entry of the upcoming-interviews widget. */
  datatype UpcomingEntry = UpcomingEntry(
    id: InterviewId, companyName: string, position: string,
    interviewDate: Instant, interviewType: string, location: string)

  /** The entry of the awaiting-response widget. */
  datatype AwaitingEntry = AwaitingEntry(
    id: InterviewId, companyName: string, position: string,
    applicationDate: Option<Date>, interviewStage: string, daysWaiting: Option<int>)

  /** The entry of the needs-review widget. */
  datatype ReviewEntry = ReviewEntry(
    id: InterviewId, companyName: string, position: string,
    interviewDate: Instant, interviewType: string, interviewStage: string, daysAgo: int)

  function ToUpcomingEntry(i: Interview): (e: UpcomingEntry)
    requires i.interviewDate.Some?
    ensures e.id == i.id && e.interviewDate == i.interviewDate.value
  {
    UpcomingEntry(i.id, i.companyName, i.position, i.interviewDate.value, i.interviewType, i.location)
  }

  /** `days_waiting` is taken against `today`, the date of the clock
      reading the view makes for this entry. */
  function ToAwaitingEntry(i: Interview, today: Date): (e: AwaitingEntry)
    ensures e.id == i.id && e.applicationDate == i.applicationDate
    ensures e.daysWaiting.None? <==> i.applicationDate.None?
    ensures e.daysWaiting == Serializers.DaysInPipeline(i, today)
  {
    AwaitingEntry(i.id, i.companyName, i.position, i.applicationDate, i.interviewStage,
                  if i.applicationDate.Some? then Some(today - i.applicationDate.value) else None)
  }

  /** `days_ago` counts calendar days, so an interview earlier today is
      zero days ago. */
  function ToReviewEntry(i: Interview, now: Instant): (e: ReviewEntry)
    requires i.interviewDate.Some?
    ensures e.id == i.id && e.interviewDate == i.interviewDate.value
    ensures DateOf(i.interviewDate.value) + e.daysAgo == DateOf(now)
    ensures i.interviewDate.value < now ==> e.daysAgo >= 0
  {
    ReviewEntry(i.id, i.companyName, i.position, i.interviewDate.value, i.interviewType,
                i.interviewStage, DateOf(now) - DateOf(i.interviewDate.value))
  }

  predicate AllDated(xs: seq<Interview>) {
    forall k :: 0 <= k < |xs| ==> xs[k].interviewDate.Some?
  }

  function UpcomingEntries(xs: seq<Interview>): (es: seq<UpcomingEntry>)
    requires AllDated(xs)
    ensures |es| == |xs|
    ensures forall k :: 0 <= k < |xs| ==> es[k] == ToUpcomingEntry(xs[k])
  {
    seq(|xs|, k requires 0 <= k < |xs| => ToUpcomingEntry(xs[k]))
  }

  function AwaitingEntries(xs: seq<Interview>, today: Date): (es: seq<AwaitingEntry>)
    ensures |es| == |xs|
    ensures forall k :: 0 <= k < |xs| ==> es[k] == ToAwaitingEntry(xs[k], today)
  {
    seq(|xs|, k requires 0 <= k < |xs| => ToAwaitingEntry(xs[k], today))
  }

  function ReviewEntries(xs: seq<Interview>, now: Instant): (es: seq<ReviewEntry>)
    requires AllDated(xs)
    ensures |es| == |xs|
    ensures forall k :: 0 <= k < |xs| ==> es[k] == ToReviewEntry(xs[k], now)
  {
    seq(|xs|, k requires 0 <= k < |xs| => ToReviewEntry(xs[k], now))
  }

  /** The dated widgets hold dated interviews only. */
  lemma DatedWidgets(xs: seq<Interview>, now: Instant)
    ensures AllDated(Widget(xs, UpcomingWindow(now), ByDateAscending))
    ensures AllDated(Widget(xs, PastScheduled(now), ByDateDescending))
  {
    WidgetSelection(xs, UpcomingWindow(now), ByDateAscending);
    WidgetSelection(xs, PastScheduled(now), ByDateDescending);
  }

  // ---------------------------------------------------------------------------
  // Summary figures
  // ---------------------------------------------------------------------------

  /** `d.get(code, 0)`. */
  function GetOrZero(m: map<string, nat>, code: string): nat {
    if code in m then m[code] else 0
  }

  function Offers(byStatus: map<string, nat>): nat {
    GetOrZero(byStatus, "offer") + GetOrZero(byStatus, "accepted")
  }

  function Active(byStatus: map<string, nat>): nat {
    GetOrZero(byStatus, "in_progress")
  }

  function Resolved(byStatus: map<string, nat>): nat {
    GetOrZero(byStatus, "offer") + GetOrZero(byStatus, "accepted") +
    GetOrZero(byStatus, "rejected") + GetOrZero(byStatus, "declined")
  }

  /** Offers as a percentage of resolved applications, before the rounding
      to one decimal place; 0 when nothing is resolved. */
  function SuccessRate(byStatus: map<string, nat>): real {
    var resolved := Resolved(byStatus);
    if resolved > 0 then (Offers(byStatus) as real / resolved as real) * 100.0 else 0.0
  }

  /** No interview carries two codes of one field, so the counts of five
      different codes add up to at most the number of interviews. */
  lemma {:induction false} DistinctCodesBound(xs: seq<Interview>, f: Field, codes: seq<string>)
    requires forall j, k :: 0 <= j < k < |codes| ==> codes[j] != codes[k]
    ensures SumOfCounts(xs, f, codes) <= |xs|
  {
    if xs == [] {
      NoInterviewsNoCounts(f, codes);
    } else {
      DistinctCodesBound(xs[1..], f, codes);
      SumOfCountsUnfold(xs, f, codes);
      AtMostOneMatch(xs[0], f, codes);
    }
  }

  lemma {:induction false} NoInterviewsNoCounts(f: Field, codes: seq<string>)
    ensures SumOfCounts([], f, codes) == 0
  {
    if codes != [] {
      NoInterviewsNoCounts(f, codes[1..]);
    }
  }

  function SumOfCounts(xs: seq<Interview>, f: Field, codes: seq<string>): nat {
    if codes == [] then 0 else Count(xs, HasCode(f, codes[0])) + SumOfCounts(xs, f, codes[1..])
  }

  /** How many of `codes` the interview carries in field `f`. */
  function Matches(i: Interview, f: Field, codes: seq<string>): nat {
    if codes == [] then 0 else (if CodeOf(i, f) == codes[0] then 1 else 0) + Matches(i, f, codes[1..])
  }

  lemma {:induction false} SumOfCountsUnfold(xs: seq<Interview>, f: Field, codes: seq<string>)
    requires xs != []
    ensures SumOfCounts(xs, f, codes) == Matches(xs[0], f, codes) + SumOfCounts(xs[1..], f, codes)
  {
    if codes != [] {
      CountUnfold(xs, HasCode(f, codes[0]));
      SumOfCountsUnfold(xs, f, codes[1..]);
    }
  }

  lemma {:induction false} AtMostOneMatch(i: Interview, f: Field, codes: seq<string>)
    requires forall j, k :: 0 <= j < k < |codes| ==> codes[j] != codes[k]
    ensures Matches(i, f, codes) <= 1
    ensures CodeOf(i, f) !in codes ==> Matches(i, f, codes) == 0
  {
    if codes != [] {
      AtMostOneMatch(i, f, codes[1..]);
    }
  }

  /** What `.get(code, 0)` reads from a count built by CountByCode. */
  lemma GetOrZeroOfCounts(xs: seq<Interview>, choices: seq<string>, m: map<string, nat>, code: string)
    requires m.Keys == set c | c in choices
    requires forall c :: c in m ==> m[c] == Count(xs, HasCode(ApplicationStatus, c))
    ensures GetOrZero(m, code) == if code in choices then Count(xs, HasCode(ApplicationStatus, code)) else 0
    ensures GetOrZero(m, code) <= Count(xs, HasCode(ApplicationStatus, code))
  {
  }

  lemma RateBounds(offers: nat, resolved: nat)
    requires offers <= resolved
    ensures resolved > 0 ==> 0.0 <= (offers as real / resolved as real) * 100.0 <= 100.0
  {
    if resolved > 0 {
      var ratio := offers as real / resolved as real;
      assert ratio * resolved as real == offers as real;
    }
  }

  /** The summary figures of a status count built by CountByCode:
      `offers` counts offer and accepted, `active` counts in_progress,
      `offers` never exceeds `resolved`, active plus resolved never exceeds
      the total, and the (unrounded) success rate lies between 0 and 100 and
      is 0 when nothing is resolved. */
  lemma SummaryFigures(xs: seq<Interview>, choices: seq<string>, m: map<string, nat>)
    requires m.Keys == set code | code in choices
    requires forall code :: code in m ==> m[code] == Count(xs, HasCode(ApplicationStatus, code))
    ensures Offers(m) ==
              (if "offer" in choices then Count(xs, HasCode(ApplicationStatus, "offer")) else 0) +
              (if "accepted" in choices then Count(xs, HasCode(ApplicationStatus, "accepted")) else 0)
    ensures Active(m) ==
              if "in_progress" in choices then Count(xs, HasCode(ApplicationStatus, "in_progress")) else 0
    ensures Offers(m) <= Resolved(m)
    ensures Active(m) + Resolved(m) <= |xs|
    ensures Resolved(m) == 0 ==> SuccessRate(m) == 0.0
    ensures 0.0 <= SuccessRate(m) <= 100.0
  {
    GetOrZeroOfCounts(xs, choices, m, "in_progress");
    GetOrZeroOfCounts(xs, choices, m, "offer");
    GetOrZeroOfCounts(xs, choices, m, "accepted");
    GetOrZeroOfCounts(xs, choices, m, "rejected");
    GetOrZeroOfCounts(xs, choices, m, "declined");
    var codes := ["in_progress", "offer", "accepted", "rejected", "declined"];
    DistinctCodesBound(xs, ApplicationStatus, codes);
    var f := ApplicationStatus;
    var c1 := ["offer", "accepted", "rejected", "declined"];
    var c2 := ["accepted", "rejected", "declined"];
    var c3 := ["rejected", "declined"];
    var c4 := ["declined"];
    assert codes[1..] == c1 && c1[1..] == c2 && c2[1..] == c3 && c3[1..] == c4 && c4[1..] == [];
    assert SumOfCounts(xs, f, c4) == Count(xs, HasCode(f, "declined"));
    assert SumOfCounts(xs, f, c3) == Count(xs, HasCode(f, "rejected")) + SumOfCounts(xs, f, c4);
    assert SumOfCounts(xs, f, c2) == Count(xs, HasCode(f, "accepted")) + SumOfCounts(xs, f, c3);
    assert SumOfCounts(xs, f, c1) == Count(xs, HasCode(f, "offer")) + SumOfCounts(xs, f, c2);
    assert SumOfCounts(xs, f, codes) == Count(xs, HasCode(f, "in_progress")) + SumOfCounts(xs, f, c1);
    RateBounds(Offers(m), Resolved(m));
  }

  // ---------------------------------------------------------------------------
  // dashboard_stats
  // ---------------------------------------------------------------------------

  datatype Dashboard = Dashboard(
    total: nat,
    active: nat,
    offers: nat,
    successRate: real,
    upcomingCount: nat,
    upcomingInterviews: seq<UpcomingEntry>,
    awaitingCount: nat,
    awaitingResponse: seq<AwaitingEntry>,
    needsReviewCount: nat,
    needsReview: seq<ReviewEntry>,
    byInterviewStage: map<string, nat>,
    byApplicationStatus: map<string, nat>)

  /** The dashboard of `user`, computed from `all` interviews. `now` is the
      instant the view reads first, `today` the date of the clock reading
      it makes for each awaiting entry (for `days_waiting`). `stageChoices` and `statusChoices` are the
      declared choice codes of the two fields. Only the user's own
      interviews enter any figure. */
  method DashboardStats(all: seq<Interview>, user: UserId, now: Instant, today: Date,
                        stageChoices: seq<string>, statusChoices: seq<string>)
    returns (d: Dashboard)
    ensures var mine := Filter(all, OwnedBy(user));
      && d.total == |mine|
      && d.byInterviewStage.Keys == (set code | code in stageChoices)
      && (forall code :: code in d.byInterviewStage ==>
            d.byInterviewStage[code] == Count(mine, HasCode(InterviewStage, code)))
      && d.byApplicationStatus.Keys == (set code | code in statusChoices)
      && (forall code :: code in d.byApplicationStatus ==>
            d.byApplicationStatus[code] == Count(mine, HasCode(ApplicationStatus, code)))
      && d.offers == Offers(d.byApplicationStatus)
      && d.active == Active(d.byApplicationStatus)
      && d.successRate == SuccessRate(d.byApplicationStatus)
      && d.upcomingCount == Count(mine, UpcomingWindow(now))
      && d.awaitingCount == Count(mine, AwaitingResponse)
      && d.needsReviewCount == Count(mine, PastScheduled(now))
    ensures var mine := Filter(all, OwnedBy(user));
      && AllDated(Widget(mine, UpcomingWindow(now), ByDateAscending))
      && AllDated(Widget(mine, PastScheduled(now), ByDateDescending))
      && d.upcomingInterviews == UpcomingEntries(Widget(mine, UpcomingWindow(now), ByDateAscending))
      && d.awaitingResponse ==
           AwaitingEntries(Widget(mine, AwaitingResponse, ByApplicationThenCreatedDescending), today)
      && d.needsReview == ReviewEntries(Widget(mine, PastScheduled(now), ByDateDescending), now)
  {
    var mine := Filter(all, OwnedBy(user));
    var byStage := CountByCode(mine, InterviewStage, stageChoices);
    var byStatus := CountByCode(mine, ApplicationStatus, statusChoices);
    DatedWidgets(mine, now);
    var upcomingList := UpcomingEntries(Widget(mine, UpcomingWindow(now), ByDateAscending));
    var awaitingList :=
      AwaitingEntries(Widget(mine, AwaitingResponse, ByApplicationThenCreatedDescending), today);
    var reviewList := ReviewEntries(Widget(mine, PastScheduled(now), ByDateDescending), now);
    d := Dashboard(
      |mine|, Active(byStatus), Offers(byStatus), SuccessRate(byStatus),
      Count(mine, UpcomingWindow(now)), upcomingList,
      Count(mine, AwaitingResponse), awaitingList,
      Count(mine, PastScheduled(now)), reviewList,
      byStage, byStatus);
  }

  /** Whatever the other users hold, a dashboard lists only interviews of
      the requesting user, each one taken from the stored interviews. */
  lemma WidgetsAreOwn(all: seq<Interview>, user: UserId, c: Criterion, o: Order)
    ensures var w := Widget(Filter(all, OwnedBy(user)), c, o);
            forall k :: 0 <= k < |w| ==> w[k] in all && w[k].user == user && Holds(c, w[k])
  {
    var mine := Filter(all, OwnedBy(user));
    WidgetSelection(mine, c, o);
    var w := Widget(mine, c, o);
    forall k | 0 <= k < |w|
      ensures w[k] in all && w[k].user == user
    {
      assert w[k] in mine;
      assert multiset(mine)[w[k]] > 0;
    }
  }

  /** Filtering distributes over concatenation. */
  lemma {:induction false} FilterAppend(a: seq<Interview>, b: seq<Interview>, c: Criterion)
    ensures Filter(a + b, c) == Filter(a, c) + Filter(b, c)
  {
    if a == [] {
      assert a + b == b;
    } else {
      var head := if Holds(c, a[0]) then [a[0]] else [];
      assert (a + b)[1..] == a[1..] + b;
      FilterAppend(a[1..], b, c);
      calc {
        Filter(a + b, c);
        head + Filter(a[1..] + b, c);
        head + (Filter(a[1..], c) + Filter(b, c));
        (head + Filter(a[1..], c)) + Filter(b, c);
      }
    }
  }

  /** Nothing is kept from a list none of whose entries qualify. */
  lemma {:induction false} FilterNone(xs: seq<Interview>, c: Criterion)
    requires forall k :: 0 <= k < |xs| ==> !Holds(c, xs[k])
    ensures Filter(xs, c) == []
  {
    if xs != [] {
      FilterNone(xs[1..], c);
    }
  }

  /** Entries that do not qualify drop out wherever they stand. */
  lemma OthersDropOut(pre: seq<Interview>, others: seq<Interview>, post: seq<Interview>, c: Criterion)
    requires forall k :: 0 <= k < |others| ==> !Holds(c, others[k])
    ensures Filter(pre + others + post, c) == Filter(pre + post, c)
  {
    FilterNone(others, c);
    FilterAppend(pre, others, c);
    FilterAppend(pre + others, post, c);
    FilterAppend(pre, post, c);
    assert Filter(pre, c) + [] == Filter(pre, c);
  }

  /** Interviews of other users, stored anywhere among the user's own, do not
      change what the dashboard sees: the user's queryset, and with it every
      count and widget, stays the same. */
  lemma CountsIgnoreOtherUsers(all: seq<Interview>, others: seq<Interview>, at: nat, user: UserId, c: Criterion)
    requires at <= |all|
    requires forall k :: 0 <= k < |others| ==> others[k].user != user
    ensures Filter(all[..at] + others + all[at..], OwnedBy(user)) == Filter(all, OwnedBy(user))
    ensures Count(Filter(all[..at] + others + all[at..], OwnedBy(user)), c) == Count(Filter(all, OwnedBy(user)), c)
  {
    var pre, post := all[..at], all[at..];
    OthersDropOut(pre, others, post, OwnedBy(user));
    assert pre + post == all;
  }

  // ---------------------------------------------------------------------------
  // Querysets and creation (InterviewViewSet, InterviewRoundViewSet)
  // ---------------------------------------------------------------------------

  /** The first interview with this id that belongs to `user`, as
      `Interview.objects.get(id=..., user=...)` finds it. */
  function FindOwned(xs: seq<Interview>, id: InterviewId, user: UserId): (r: Option<Interview>)
    ensures r.Some? <==> exists k :: 0 <= k < |xs| && xs[k].id == id && xs[k].user == user
    ensures r.Some? ==> r.value in xs && r.value.id == id && r.value.user == user
  {
    if xs == [] then None
    else if xs[0].id == id && xs[0].user == user then Some(xs[0])
    else
      var r := FindOwned(xs[1..], id, user);
      assert forall k :: 1 <= k < |xs| ==> xs[k] == xs[1..][k - 1];
      r
  }

  /** Rounds of interviews that belong to `user` (`interview__user=user`). */
  function RoundsOf(xs: seq<Interview>, rounds: seq<InterviewRound>, user: UserId): (r: seq<InterviewRound>)
    ensures forall k :: 0 <= k < |r| ==> r[k] in rounds && FindOwned(xs, r[k].interview, user).Some?
    ensures forall rd :: rd in rounds && FindOwned(xs, rd.interview, user).Some? ==> rd in r
  {
    if rounds == [] then []
    else
      (if FindOwned(xs, rounds[0].interview, user).Some? then [rounds[0]] else []) +
      RoundsOf(xs, rounds[1..], user)
  }

  const PermissionDeniedMessage: string := "You can only add rounds to your own interviews."

  datatype PermissionDenied = PermissionDenied(message: string)

  /** The stored interviews and rounds. */
  class InterviewStore {
    var interviews: seq<Interview>
    var rounds: seq<InterviewRound>

    constructor ()
      ensures interviews == [] && rounds == []
    {
      interviews := [];
      rounds := [];
    }

    /** `InterviewViewSet.get_queryset`: the user's interviews. */
    function QuerySet(user: UserId): (r: seq<Interview>)
      reads this
      ensures forall k :: 0 <= k < |r| ==> r[k].user == user && r[k] in interviews
      ensures forall i :: i in interviews && i.user == user ==> i in r
    {
      FilterMembers(interviews, OwnedBy(user));
      Filter(interviews, OwnedBy(user))
    }

    /** `InterviewRoundViewSet.get_queryset`: the rounds of the user's
        interviews. */
    function RoundQuerySet(user: UserId): (r: seq<InterviewRound>)
      reads this
      ensures forall k :: 0 <= k < |r| ==>
                (r[k] in rounds &&
                 exists j :: 0 <= j < |interviews| && interviews[j].id == r[k].interview &&
                             interviews[j].user == user)
      ensures forall rd ::
                (rd in rounds &&
                 exists j :: 0 <= j < |interviews| && interviews[j].id == rd.interview &&
                             interviews[j].user == user) ==> rd in r
    {
      RoundsOf(interviews, rounds, user)
    }

    /** `InterviewViewSet.perform_create`: the new interview is saved with
        the requesting user as its owner, whatever the request said. */
    method CreateInterview(user: UserId, data: Interview)
      modifies this
      ensures interviews == old(interviews) + [data.(user := user)]
      ensures rounds == old(rounds)
      ensures data.(user := user) in QuerySet(user)
    {
      interviews := interviews + [data.(user := user)];
    }

    /** `InterviewRoundViewSet.perform_create`: `requested` is the
        request's "interview" value. The round is saved only when that names
        an interview of the user; otherwise PermissionDenied is raised and
        nothing is stored. */
    method CreateRound(user: UserId, requested: Option<InterviewId>, round: InterviewRound)
      returns (r: Result<InterviewRound, PermissionDenied>)
      modifies this
      ensures r.Ok? <==>
                (requested.Some? &&
                 exists k :: 0 <= k < |interviews| && interviews[k].id == requested.value &&
                             interviews[k].user == user)
      ensures r.Ok? ==> r.value == round && rounds == old(rounds) + [round]
      ensures r.Err? ==> r.error == PermissionDenied(PermissionDeniedMessage) && rounds == old(rounds)
      ensures interviews == old(interviews)
      ensures r.Ok? && round.interview == requested.value ==> round in RoundQuerySet(user)
    {
      var found := if requested.Some? then FindOwned(interviews, requested.value, user) else None;
      if found.Some? {
        ghost var k :| 0 <= k < |interviews| && interviews[k].id == requested.value &&
                       interviews[k].user == user;
        rounds := rounds + [round];
        assert interviews[k].id == requested.value && interviews[k].user == user;
        r := Ok(round);
      } else {
        r := Err(PermissionDenied(PermissionDeniedMessage));
      }
    }
  }
}
