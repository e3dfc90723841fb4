/**
 * The decision logic of the Figures serializers: blank-country handling, the
 * staff and daily-metrics getters, the course history-metric wrapper and the
 * course-details getters that use it, language proficiencies, a learner's
 * course list, and the learner progress getter with its error logging.
 *
 * ORM queries are modelled as tables given in query order and filtered here;
 * the metric functions and `get_monthly_history_metric` are parameters.
 */
module Serializers {
  import opened Wrappers
  import opened Entities
  import opened Seqs
  import Sites
  import PipelineLogger

  /** How many months of history the course-details getters ask for. */
  const HISTORY_MONTHS_BACK: int := 6

  // ---------------------------------------------------------------------------
  // SerializeableCountryField
  // ---------------------------------------------------------------------------

  /**
   * `to_representation` of the country field: a blank or absent country is
   * serialized as "", anything else goes to the choice field's own
   * `to_representation`, given here as `choice`.
   */
  function CountryRepresentation(value: Option<string>, choice: string -> string): (r: string)
    ensures value == None || value == Some("") ==> r == ""
    ensures value.Some? && value.value != "" ==> r == choice(value.value)
    ensures r == "" <==> value == None || value == Some("") || choice(value.value) == ""
  {
    match value
    case None => ""
    case Some(v) => if v == "" then "" else choice(v)
  }

  // ---------------------------------------------------------------------------
  // Staff
  // ---------------------------------------------------------------------------

  datatype CourseAccessRole = CourseAccessRole(user: User, courseId: CourseKey, role: string)

  /** One serialized staff entry: user id, username, full name (none without a profile) and role. */
  datatype StaffEntry = StaffEntry(userId: UserId, username: string, fullname: Option<string>, role: string)

  function StaffEntryOf(a: CourseAccessRole): StaffEntry {
    StaffEntry(a.user.id, a.user.username,
      match a.user.profile case Some(p) => Some(p.name) case None => None,
      a.role)
  }

  /** `CourseAccessRole.objects.filter(course_id=...)`, in query order. */
  function RolesFor(roles: seq<CourseAccessRole>, c: CourseKey): (r: seq<CourseAccessRole>)
    ensures forall a :: a in r <==> a in roles && a.courseId == c
  {
    Filter(roles, (a: CourseAccessRole) => a.courseId == c)
  }

  /**
   * `get_staff` (the same in the general and in the detailed course
   * serializer): one entry per access role of the course, in query order,
   * and `[]` when the course has none.
   */
  function GetStaff(roles: seq<CourseAccessRole>, c: CourseKey): (r: seq<StaffEntry>)
    ensures r == [] <==> forall a :: a in roles ==> a.courseId != c
    ensures |r| == |RolesFor(roles, c)|
    ensures forall i :: 0 <= i < |r| ==> r[i] == StaffEntryOf(RolesFor(roles, c)[i])
    ensures forall e :: e in r ==> exists a :: a in roles && a.courseId == c && e == StaffEntryOf(a)
  {
    var qs := RolesFor(roles, c);
    if |qs| > 0 then
      var r := seq(|qs|, i requires 0 <= i < |qs| => StaffEntryOf(qs[i]));
      assert forall e :: e in r ==> exists i :: 0 <= i < |qs| && e == StaffEntryOf(qs[i]);
      assert qs[0] in qs;
      r
    else []
  }

  /** When every role is for course `c`, the entries follow the roles one for one, in query order. */
  lemma GetStaffFollowsQueryOrder(roles: seq<CourseAccessRole>, c: CourseKey)
    requires forall i :: 0 <= i < |roles| ==> roles[i].courseId == c
    ensures |GetStaff(roles, c)| == |roles|
    ensures forall i :: 0 <= i < |roles| ==> GetStaff(roles, c)[i] == StaffEntryOf(roles[i])
  {
    FilterKeepsAll(roles, (a: CourseAccessRole) => a.courseId == c);
  }

  // ---------------------------------------------------------------------------
  // Daily metrics
  // ---------------------------------------------------------------------------

  datatype CourseDailyMetrics = CourseDailyMetrics(
    courseId: CourseKey,
    dateFor: Date,
    enrollmentCount: int,
    activeLearnersToday: int,
    averageProgress: real,
    averageDaysToComplete: int,
    numLearnersCompleted: int)

  /** The `metrics` field: `[]` when there are no daily metrics, else the latest record. */
  datatype MetricsField = NoMetrics | Latest(record: CourseDailyMetrics)

  /** `latest('date_for')`: a record with the greatest date; of several, the first in query order. */
  function LatestByDate(rs: seq<CourseDailyMetrics>): (r: CourseDailyMetrics)
    requires |rs| > 0
    ensures r in rs
    ensures forall x :: x in rs ==> x.dateFor <= r.dateFor
  {
    if |rs| == 1 then rs[0]
    else
      var rest := LatestByDate(rs[1..]);
      assert forall x :: x in rs ==> x == rs[0] || x in rs[1..];
      if rs[0].dateFor >= rest.dateFor then rs[0] else rest
  }

  /** `get_metrics`: the course's latest daily-metrics record, or `[]` when it has none. */
  function GetMetrics(table: seq<CourseDailyMetrics>, c: CourseKey): (r: MetricsField)
    ensures r == NoMetrics <==> forall x :: x in table ==> x.courseId != c
    ensures r.Latest? ==>
      r.record in table && r.record.courseId == c &&
      forall x :: x in table && x.courseId == c ==> x.dateFor <= r.record.dateFor
  {
    var qs := Filter(table, (x: CourseDailyMetrics) => x.courseId == c);
    if |qs| > 0 then Latest(LatestByDate(qs)) else NoMetrics
  }

  // ---------------------------------------------------------------------------
  // History metrics
  // ---------------------------------------------------------------------------

  /** A metric function of `figures.metrics`: `func(site, start_date, end_date, course_id)`. */
  type PeriodMetric<V> = (Option<SiteId>, Date, Date, CourseKey) -> V
  /** A metric bound to one course: `func(site, start_date, end_date)`. */
  type MonthlyMetric<V> = (Option<SiteId>, Date, Date) -> V
  /** `get_monthly_history_metric(func, site, date_for, months_back)`. */
  type HistoryDriver<!V, H> = (MonthlyMetric<V>, Option<SiteId>, Date, int) -> H

  /** The lambda of `get_course_history_metric`: `func` with the course fixed. */
  function BindCourse<V>(func: PeriodMetric<V>, c: CourseKey): (bound: MonthlyMetric<V>)
    ensures forall site, start, end :: bound(site, start, end) == func(site, start, end, c)
  {
    (site, start, end) => func(site, start, end, c)
  }

  /**
   * `get_course_history_metric`: the history driver is given the same site,
   * reference date and months back, and a metric that agrees with `func` at
   * course `c` for every site and period.
   */
  function CourseHistoryMetric<V(!new), H>(site: Option<SiteId>, c: CourseKey, func: PeriodMetric<V>,
                                     dateFor: Date, monthsBack: int, monthly: HistoryDriver<V, H>): (r: H)
    ensures exists bound: MonthlyMetric<V> ::
      r == monthly(bound, site, dateFor, monthsBack) &&
      forall s, a, b :: bound(s, a, b) == func(s, a, b, c)
  {
    var bound := BindCourse(func, c);
    assert forall s, a, b :: bound(s, a, b) == func(s, a, b, c);
    monthly(bound, site, dateFor, monthsBack)
  }

  // ---------------------------------------------------------------------------
  // CourseDetailsSerializer
  // ---------------------------------------------------------------------------

  datatype DetailMetric = LearnersEnrolled | AverageProgress | AverageDaysToComplete | UsersCompleted

  /** The four metric functions the course-details getters use. */
  datatype MetricFunctions<V> = MetricFunctions(
    enrolledUsers: PeriodMetric<V>,
    averageProgress: PeriodMetric<V>,
    averageDaysToComplete: PeriodMetric<V>,
    numLearnersCompleted: PeriodMetric<V>)
  {
    function For(kind: DetailMetric): PeriodMetric<V> {
      match kind
      case LearnersEnrolled => enrolledUsers
      case AverageProgress => averageProgress
      case AverageDaysToComplete => averageDaysToComplete
      case UsersCompleted => numLearnersCompleted
    }
  }

  /** The fields of the course-details representation that carry logic. */
  datatype CourseDetails<H> = CourseDetails(
    courseId: CourseKey,
    staff: seq<StaffEntry>,
    learnersEnrolled: H,
    averageProgress: H,
    averageDaysToComplete: H,
    usersCompleted: H)

  class CourseDetailsSerializer {
    /** The site of the course being represented, stored by `ToRepresentation`. */
    var site: Option<SiteId>

    constructor ()
      ensures site == None
    {
      site := None;
    }

    /**
     * The four metric getters: each hands the history driver the stored site,
     * the reference date and `HISTORY_MONTHS_BACK` months, with its metric
     * function bound to the course.
     */
    function GetMetricHistory<V(!new), H>(kind: DetailMetric, course: Course, fns: MetricFunctions<V>,
                                    monthly: HistoryDriver<V, H>, dateFor: Date): (r: H)
      reads this
      ensures exists bound: MonthlyMetric<V> ::
        r == monthly(bound, site, dateFor, 6) &&
        forall s, a, b :: bound(s, a, b) == fns.For(kind)(s, a, b, course.id)
    {
      CourseHistoryMetric(site, course.id, fns.For(kind), dateFor, HISTORY_MONTHS_BACK, monthly)
    }

    /**
     * `to_representation`: resolve and store the course's site, then build the
     * representation from the getters, which read the stored site. A fatal
     * resolution error propagates and leaves the stored site as it was.
     */
    method ToRepresentation<V(!new), H>(course: Course, snap: Sites.Snapshot, mode: Sites.Mode,
                                  roles: seq<CourseAccessRole>, fns: MetricFunctions<V>,
                                  monthly: HistoryDriver<V, H>, dateFor: Date)
      returns (r: Result<CourseDetails<H>, Sites.SiteError>)
      modifies this
      ensures var lookup := Sites.GetSiteForCourse(snap, mode, Some(course.id));
        (lookup.Failure? ==> site == old(site) && r == Failure(lookup.error)) &&
        (lookup.Success? ==>
          site == lookup.value && r.Success? &&
          r.value == CourseDetails(course.id, GetStaff(roles, course.id),
            GetMetricHistory(LearnersEnrolled, course, fns, monthly, dateFor),
            GetMetricHistory(AverageProgress, course, fns, monthly, dateFor),
            GetMetricHistory(AverageDaysToComplete, course, fns, monthly, dateFor),
            GetMetricHistory(UsersCompleted, course, fns, monthly, dateFor)))
    {
      var lookup := Sites.GetSiteForCourse(snap, mode, Some(course.id));
      if lookup.Failure? {
        return Failure(lookup.error);
      }
      site := lookup.value;
      r := Success(CourseDetails(course.id, GetStaff(roles, course.id),
        GetMetricHistory(LearnersEnrolled, course, fns, monthly, dateFor),
        GetMetricHistory(AverageProgress, course, fns, monthly, dateFor),
        GetMetricHistory(AverageDaysToComplete, course, fns, monthly, dateFor),
        GetMetricHistory(UsersCompleted, course, fns, monthly, dateFor)));
    }
  }

  // ---------------------------------------------------------------------------
  // Language proficiencies
  // ---------------------------------------------------------------------------

  /**
   * Python's `hasattr` on a platform user. `attrs` are the names of the user
   * object's attributes other than `profile`; `profile` is present exactly when
   * a profile row exists (otherwise reading it raises, which `hasattr` reports
   * as absent).
   */
  predicate HasAttribute(user: User, attrs: set<string>, name: string) {
    if name == "profile" then user.profile.Some? else name in attrs
  }

  /** The profile language as a string, "" when unset (which Python treats as false). */
  function LanguageOf(p: Profile): string {
    match p.language case Some(l) => l case None => ""
  }

  /** Reading `user.profile` when the user has no profile row raises `RelatedObjectDoesNotExist`. */
  datatype AttributeFailure = ProfileDoesNotExist

  /**
   * `get_language_proficiencies` as written: it tests for an attribute named
   * `profiles` and then reads `user.profile`.
   */
  function LanguageProficienciesAsWritten(user: User, attrs: set<string>): (r: Result<seq<string>, AttributeFailure>)
    ensures "profiles" !in attrs ==> r == Success([])
    ensures r.Failure? <==> "profiles" in attrs && user.profile.None?
    ensures "profiles" in attrs && user.profile.Some? ==> r == Success(LanguageProficiencies(user, attrs))
  {
    if HasAttribute(user, attrs, "profiles") then
      match user.profile
      case Some(p) => Success(if LanguageOf(p) != "" then [LanguageOf(p)] else [])
      case None => Failure(ProfileDoesNotExist)
    else Success([])
  }

  /** As written, a user object without a `profiles` attribute never gets a language. */
  lemma LanguageProficienciesAsWrittenAlwaysEmpty(user: User, attrs: set<string>)
    requires "profiles" !in attrs
    ensures LanguageProficienciesAsWritten(user, attrs) == Success([])
  {
  }

  /** A user without a `profiles` attribute whose profile sets a language still gets `[]` from the code as written. */
  lemma LanguageProficienciesAsWrittenDropsLanguage()
    ensures var u := User(7, "maxi", Some(Profile("Maxi", Some("UY"), Some("es"))));
      LanguageProficienciesAsWritten(u, {"username", "email"}) == Success([]) &&
      LanguageProficiencies(u, {"username", "email"}) == ["es"]
  {
  }

  /**
   * `get_language_proficiencies` as intended (both serializers): `[language]`
   * exactly when the user has a profile whose language is set, else `[]`.
   * It does not depend on `attrs`, which it takes only to share the
   * as-written getter's signature.
   */
  function LanguageProficiencies(user: User, attrs: set<string>): (r: seq<string>)
    ensures |r| <= 1
    ensures r != [] <==> user.profile.Some? && user.profile.value.language.Some? &&
                         user.profile.value.language.value != ""
    ensures r != [] ==> r == [user.profile.value.language.value]
  {
    if HasAttribute(user, attrs, "profile") && LanguageOf(user.profile.value) != "" then
      [LanguageOf(user.profile.value)]
    else []
  }

  // ---------------------------------------------------------------------------
  // A learner's courses
  // ---------------------------------------------------------------------------

  /** `CourseEnrollment.objects.filter(user=user).values_list('course_id')`, before `distinct()`. */
  function EnrolledCourseIds(enrollments: seq<Enrollment>, user: User): (r: seq<CourseKey>)
    ensures forall k :: k in r <==> exists e :: e in enrollments && e.user.id == user.id && e.courseId == k
  {
    if enrollments == [] then []
    else
      var rest := EnrolledCourseIds(enrollments[1..], user);
      assert forall e :: e in enrollments ==> e == enrollments[0] || e in enrollments[1..];
      if enrollments[0].user.id == user.id then [enrollments[0].courseId] + rest else rest
  }

  /**
   * `GeneralUserDataSerializer.get_courses`: the course overviews, in query
   * order, whose key is among the distinct course ids the user is enrolled in.
   */
  function GetCourses(enrollments: seq<Enrollment>, overviews: seq<Course>, user: User): (r: seq<Course>)
    ensures |r| <= |overviews|
    ensures forall c :: c in r <==>
      c in overviews && exists e :: e in enrollments && e.user.id == user.id && e.courseId == c.id
  {
    var ids := Distinct(EnrolledCourseIds(enrollments, user));
    Filter(overviews, (c: Course) => c.id in ids)
  }

  /** The result depends only on which courses the user is enrolled in, not on how often or in what order. */
  lemma GetCoursesDependsOnlyOnEnrolledCourses(es1: seq<Enrollment>, es2: seq<Enrollment>,
                                               overviews: seq<Course>, user: User)
    requires forall k :: (k in EnrolledCourseIds(es1, user)) == (k in EnrolledCourseIds(es2, user))
    ensures GetCourses(es1, overviews, user) == GetCourses(es2, overviews, user)
  {
    var ids1 := Distinct(EnrolledCourseIds(es1, user));
    var ids2 := Distinct(EnrolledCourseIds(es2, user));
    FilterAgrees(overviews, (c: Course) => c.id in ids1, (c: Course) => c.id in ids2);
  }

  /** A repeated enrollment does not repeat or change the courses listed. */
  lemma GetCoursesIgnoresDuplicateEnrollment(es: seq<Enrollment>, e: Enrollment, overviews: seq<Course>, user: User)
    requires e in es
    ensures GetCourses(es + [e], overviews, user) == GetCourses(es, overviews, user)
  {
    var es2 := es + [e];
    assert forall x :: x in es2 <==> x in es;
    GetCoursesDependsOnlyOnEnrolledCourses(es2, es, overviews, user);
  }

  /** With at most one overview per course key, no course key is listed twice. */
  lemma GetCoursesHasNoDuplicates(enrollments: seq<Enrollment>, overviews: seq<Course>, user: User)
    requires KeysDistinct(overviews, (c: Course) => c.id)
    ensures KeysDistinct(GetCourses(enrollments, overviews, user), (c: Course) => c.id)
  {
    var ids := Distinct(EnrolledCourseIds(enrollments, user));
    FilterKeysDistinct(overviews, (c: Course) => c.id in ids, (c: Course) => c.id);
  }

  /** The courses are listed in overview-table order: the table's order restricted to enrolled courses. */
  lemma GetCoursesKeepsTableOrder(enrollments: seq<Enrollment>, t1: seq<Course>, t2: seq<Course>, user: User)
    ensures GetCourses(enrollments, t1 + t2, user) ==
            GetCourses(enrollments, t1, user) + GetCourses(enrollments, t2, user)
  {
    var ids := Distinct(EnrolledCourseIds(enrollments, user));
    FilterAppend(t1, t2, (c: Course) => c.id in ids);
  }

  // ---------------------------------------------------------------------------
  // Learner progress
  // ---------------------------------------------------------------------------

  datatype Certificate = Certificate(userId: UserId, courseId: CourseKey, createdDate: Date)

  /** `course_completed`: `False`, or the creation date of the first certificate. */
  datatype Completion = NotCompleted | CompletedOn(date: Date)

  /** The most recent `LearnerCourseGradeMetrics` record's progress fields. */
  datatype GradeMetrics = GradeMetrics(progressPercent: real, progressDetails: map<string, real>)

  datatype HistoryPoint = HistoryPoint(period: string, value: real)

  datatype ProgressData = ProgressData(
    courseCompleted: Completion,
    courseProgress: real,
    courseProgressDetails: Option<map<string, real>>,
    courseProgressHistory: seq<HistoryPoint>)

  /** What the progress getter returns and what it appends to the error log. */
  datatype ProgressOutcome = ProgressOutcome(data: ProgressData, logged: seq<PipelineLogger.ErrorRecord>)

  /** `GeneratedCertificate.objects.filter(user=..., course_id=...)`, in query order. */
  function CertificatesFor(certificates: seq<Certificate>, e: Enrollment): (r: seq<Certificate>)
    ensures forall x :: x in r <==> x in certificates && x.userId == e.user.id && x.courseId == e.courseId
  {
    Filter(certificates, (x: Certificate) => x.userId == e.user.id && x.courseId == e.courseId)
  }

  /** The record logged when the grade lookup raises `exception`. */
  function ProgressErrorRecord(e: Enrollment, exception: string): PipelineLogger.ErrorRecord {
    PipelineLogger.ErrorRecord(PipelineLogger.UnspecifiedData,
      PipelineLogger.ErrorData("Unable to get learner course metrics", e.user.username, e.courseId, exception))
  }

  /**
   * `get_progress_data`, as a value: completion from the first certificate,
   * progress copied from the grade lookup, or, when the lookup fails, zero
   * progress, no details and exactly one unspecified-data error logged. The
   * history is always empty.
   */
  function ProgressDataFor(e: Enrollment, certificates: seq<Certificate>,
                           lookup: Result<GradeMetrics, string>): (r: ProgressOutcome)
    ensures r.data.courseCompleted.CompletedOn? <==>
      exists x :: x in certificates && x.userId == e.user.id && x.courseId == e.courseId
    ensures r.data.courseCompleted.CompletedOn? ==>
      r.data.courseCompleted.date == CertificatesFor(certificates, e)[0].createdDate
    ensures r.data.courseProgressHistory == []
    ensures lookup.Success? ==>
      r.logged == [] &&
      r.data.courseProgress == lookup.value.progressPercent &&
      r.data.courseProgressDetails == Some(lookup.value.progressDetails)
    ensures lookup.Failure? ==>
      |r.logged| == 1 &&
      r.logged[0].errorType == PipelineLogger.UnspecifiedData &&
      r.logged[0].data.username == e.user.username &&
      r.logged[0].data.courseId == e.courseId &&
      r.logged[0].data.exception == lookup.error &&
      r.data.courseProgress == 0.0 &&
      r.data.courseProgressDetails == None
  {
    var certs := CertificatesFor(certificates, e);
    var completed := if |certs| > 0 then CompletedOn(certs[0].createdDate) else NotCompleted;
    match lookup
    case Success(g) =>
      ProgressOutcome(ProgressData(completed, g.progressPercent, Some(g.progressDetails), []), [])
    case Failure(ex) =>
      ProgressOutcome(ProgressData(completed, 0.0, None, []), [ProgressErrorRecord(e, ex)])
  }

  /**
   * `course_completed` is the creation date of the first of the learner's
   * certificates for the course in query order: no earlier certificate in the
   * table is theirs for that course.
   */
  lemma CompletionIsFirstCertificate(e: Enrollment, certificates: seq<Certificate>,
                                     lookup: Result<GradeMetrics, string>)
    requires ProgressDataFor(e, certificates, lookup).data.courseCompleted.CompletedOn?
    ensures exists i :: (0 <= i < |certificates| &&
      certificates[i].userId == e.user.id && certificates[i].courseId == e.courseId &&
      certificates[i].createdDate == ProgressDataFor(e, certificates, lookup).data.courseCompleted.date &&
      forall j :: 0 <= j < i ==> !(certificates[j].userId == e.user.id && certificates[j].courseId == e.courseId))
  {
    FilterFirst(certificates, (x: Certificate) => x.userId == e.user.id && x.courseId == e.courseId);
  }

  /**
   * `LearnerCourseDetailsSerializer.get_progress_data`: the branch-wise
   * computation, appending to `log` in the failure branch.
   */
  method GetProgressData(e: Enrollment, certificates: seq<Certificate>,
                         lookup: Result<GradeMetrics, string>, log: PipelineLogger.ErrorLog)
    returns (data: ProgressData)
    modifies log
    ensures data == ProgressDataFor(e, certificates, lookup).data
    ensures log.entries == old(log.entries) + ProgressDataFor(e, certificates, lookup).logged
  {
    var cert := CertificatesFor(certificates, e);
    var courseCompleted: Completion;
    if |cert| > 0 {
      courseCompleted := CompletedOn(cert[0].createdDate);
    } else {
      courseCompleted := NotCompleted;
    }
    var progressPercent: real;
    var progressDetails: Option<map<string, real>>;
    match lookup {
      case Success(obj) =>
        progressPercent := obj.progressPercent;
        progressDetails := Some(obj.progressDetails);
      case Failure(ex) =>
        var errorData := PipelineLogger.ErrorData("Unable to get learner course metrics",
                                                  e.user.username, e.courseId, ex);
        log.LogError(errorData, PipelineLogger.UnspecifiedData);
        progressPercent := 0.0;
        progressDetails := None;
    }
    var courseProgressHistory: seq<HistoryPoint> := [];
    data := ProgressData(courseCompleted, progressPercent, progressDetails, courseProgressHistory);
  }
}
