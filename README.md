# Figures analytics core, modelled in Dafny

Figures computes course and learner analytics for an Open edX installation.
It can run in two deployment modes. In standalone mode there is one site. In
multisite mode several sites (tenants) share an installation and are scoped
through organizations. This project models three sequential pieces of
Figures and proves properties about them:

- **Site resolution** (`sites.dfy`, module `Sites`). The functions that map a
  course to its site, and a site to its course keys, courses, user ids, users
  and enrollments. They work over an immutable `Snapshot` of the platform's
  tables and an explicit `Mode` (`Standalone | Multisite`), which stands in for
  the `IS_FIGURES_MULTISITE` setting. The implementation module `figures/sites.py`
  is not part of this model. The resolver is specified from what the site-handler
  tests assert. In multisite mode, a course with no `OrganizationCourse` row
  resolves to no site (tests/test_sites.py:153-162), and so does an absent or
  empty course id (tests/test_sites.py:164-172). Three further choices are the
  model's own:
  - standalone resolution gives the configured default site (`SITE_ID`), and is an
    error when that site does not exist;
  - a course whose organizations reach several sites is an error (`AmbiguousSite`);
    no test fixes what happens then;
  - a course linked only to organizations that have no site resolves to no site,
    as an unlinked course does.
- **Serializer decision logic** (`serializers.dfy`, module `Serializers`; the
  error log in `logger.dfy`, module `PipelineLogger`):
  - blank-country normalisation;
  - the staff and daily-metrics getters;
  - the course history-metric wrapper and the course-details getters that use it (with `HISTORY_MONTHS_BACK = 6`);
  - language proficiencies;
  - a learner's course list through the distinct course ids of their enrollments;
  - the learner progress getter.

  ORM queries are tables given in query order and filtered in the model. The
  figures metric functions and `get_monthly_history_metric` are parameters.
  `CourseDetailsSerializer` is a class: `to_representation` stores the course's
  site in a field, and the metric getters read that field. `log_error` appends
  to the `entries` field of an `ErrorLog` object.
- **The `generalData` Redux reducer** (`general_data.dfy`, module
  `GeneralDataReducer`). A `data` payload that a load replaces, and a counter of
  API fetches in flight. The reducer is a pure function on state values, so it
  never changes its input state.

`wrappers.dfy` (Option, Result), `seqs.dfy` (filtering, `distinct()`) and
`entities.dfy` (users, profiles, courses, enrollments) hold shared definitions.

Two of the resolver lemmas need a foreign key of the database as a
precondition:
- `Sites.UserIdsAreIdsOfUsers` needs every user-organization mapping to name an existing user.
- `Sites.StandaloneEnrollmentsAreAllEnrollments` needs every enrollment to be in a course that has an overview.

The model filters enrollments by the site's course keys in both modes. So an
enrollment in a course without an overview is not counted, even in standalone
mode. The test at tests/test_sites.py:110-115 relies on the enrollment factory
creating the overview.

`CourseDetailsSerializer.to_representation` passes the course overview object
itself to `get_site_for_course` (figures/serializers.py:335). The model passes
the course's key.

## Model

| member | source | states |
|---|---|---|
| `Sites.GetSiteForCourse` | tests/test_sites.py:73-172 | Standalone gives the default site for any course, or an error if the default site is missing. Multisite gives the single site reached through the course's organization links. It gives no site exactly when the id is absent or empty or no site is reachable, and an error exactly when the links reach more than one site |
| `Sites.GetCourseKeysForSite` | tests/test_sites.py:174-184 | A key is in the result iff some course has it (standalone), or iff it is linked by an `OrganizationCourse` row to an organization of the site (multisite) |
| `Sites.GetCoursesForSite` | tests/test_sites.py:186-196 | Exactly the course overviews whose key is among the site's course keys |
| `Sites.GetUserIdsForSite` | tests/test_sites.py:240-244 | An id is in the result iff some user has it (standalone), or iff it is mapped to an organization of the site (multisite) |
| `Sites.GetUsersForSite` | tests/test_sites.py:246-251 | Exactly the users whose id is among the site's user ids |
| `Sites.GetCourseEnrollmentsForSite` | tests/test_sites.py:198-209 | Exactly the enrollments whose course key is among the site's course keys |
| `Sites.StandaloneSiteForAnyCourse` | tests/test_sites.py:65-80 | With one site, configured as the default, every course id (even an absent one) resolves to that site |
| `Sites.StandaloneCourseKeysAreAllCourses` | tests/test_sites.py:82-90 | Standalone course keys are the keys of all courses, and the empty set when there are none |
| `Sites.StandaloneCoursesAreAllCourses` | tests/test_sites.py:92-95 | Standalone courses for the site are all course overviews |
| `Sites.StandaloneUsersAreAllUsers` | tests/test_sites.py:97-108 | Standalone user ids are all user ids, and the users are all users |
| `Sites.StandaloneEnrollmentsAreAllEnrollments` | tests/test_sites.py:110-115 | Standalone enrollments are all enrollments, when every enrolled course has an overview |
| `Sites.UserIdsAreIdsOfUsers` | tests/test_sites.py:103-108 | In either mode, the ids of the site's users are exactly the site's user ids, given the mapping table's foreign key |
| `Sites.NoCourseKeysNoEnrollments` | tests/test_sites.py:174-209 | A site with no course keys has no courses and no enrollments |
| `Sites.MultisiteLinkedCourseResolves` | tests/test_sites.py:137-151 | A course linked only to organization o, whose only site is s, resolves to s |
| `Sites.MultisiteUnlinkedCourseHasNoSite` | tests/test_sites.py:153-162 | A course with no `OrganizationCourse` row resolves to no site |
| `Sites.MultisiteBlankCourseHasNoSite` | tests/test_sites.py:164-172 | `None` and `''` resolve to no site |
| `Sites.MultisiteScopeOfSingleOrgSite` | tests/test_sites.py:174-209 | For a site whose only organization is o: course keys, courses and enrollments are exactly those of the courses linked to o, and the key and enrollment sets are empty when o has no linked courses |
| `Sites.MultisiteUsersOfSingleOrgSite` | tests/test_sites.py:226-251 | For a site whose only organization is o: user ids and users are exactly those mapped to o |
| `Sites.SiteOfCourseMatchesCourseKeys` | tests/test_sites.py:137-196 | Course-to-site and site-to-courses agree. A course resolving to s is one of s's keys, and a non-empty key of s that reaches only one site resolves to s |
| `Seqs.FilterAppend` | figures/serializers.py:240-245 | Filtering a query keeps its order: filtering a concatenation is the concatenation of the filtered parts |
| `Seqs.FilterFirst` | figures/serializers.py:563-566 | The first kept element is the first element of the table that satisfies the filter |
| `Seqs.Distinct` | figures/serializers.py:488-489 | `distinct()` gives the same members as its input, with no repetition, and is no longer |
| `Serializers.CountryRepresentation` | figures/serializers.py:74-81 | `''` and `None` give `''`. Any other value gives the delegate's result unchanged. The result is `''` iff the value is blank or the delegate gives `''` |
| `Serializers.GetStaff` | figures/serializers.py:240-245 | One entry per access role of the course, in query order, each built from its role. `[]` iff the course has no role. Lines 339-344 are the same getter in the course-details serializer |
| `Serializers.GetStaffFollowsQueryOrder` | figures/serializers.py:240-245 | When every role is for the course, entry i is the entry built from role i (`CourseAccessRoleForGCDSerializer`, lines 166-178, as `StaffEntryOf`) |
| `Serializers.LatestByDate` | figures/serializers.py:250 | The chosen record is one of the course's records, and no record has a later `date_for` |
| `Serializers.GetMetrics` | figures/serializers.py:247-252 | `[]` iff the course has no daily metrics. Otherwise a record of that course with the greatest `date_for` |
| `Serializers.BindCourse` | figures/serializers.py:280-285 | The bound metric, called with any site and period, equals `func` with that site and period and the fixed course id |
| `Serializers.CourseHistoryMetric` | figures/serializers.py:255-289 | The result is the history driver's output for the same site, `date_for` and `months_back`, and for a metric that agrees everywhere with `func` at this course |
| `Serializers.CourseDetailsSerializer.GetMetricHistory` | figures/serializers.py:346-390 | Each of the four metric getters hands the driver the stored site, the reference date and 6 months back, with its own metric function bound to the course |
| `Serializers.CourseDetailsSerializer.ToRepresentation` | figures/serializers.py:329-337 | Stores the resolved site, then builds staff and the four metric histories while reading it. A resolution error propagates and leaves the stored site unchanged |
| `Serializers.LanguageProficienciesAsWritten` | figures/serializers.py:481-485 | The code as written, over the user object's attribute names. Without a `profiles` attribute the result is `[]`. With one, it raises exactly when the user has no profile, and otherwise agrees with the intended getter |
| `Serializers.LanguageProficienciesAsWrittenAlwaysEmpty` | figures/serializers.py:686-690 | As written, a user object without a `profiles` attribute always gets `[]` |
| `Serializers.LanguageProficienciesAsWrittenDropsLanguage` | figures/serializers.py:482-483 | A user without a `profiles` attribute whose profile language is "es" gets `[]` as written, but `["es"]` as intended |
| `Serializers.LanguageProficiencies` | figures/serializers.py:481-485 | As intended: at most one element, non-empty iff the user has a profile with a non-empty language, and then exactly `[language]` |
| `Serializers.EnrolledCourseIds` | figures/serializers.py:488-489 | A key is listed iff the user has an enrollment in that course |
| `Serializers.GetCourses` | figures/serializers.py:487-494 | An overview is listed iff it is in the overview table and the user is enrolled in its course. The list is no longer than the table |
| `Serializers.GetCoursesDependsOnlyOnEnrolledCourses` | figures/serializers.py:488-492 | Two enrollment tables that give the user the same set of course ids give the same course list |
| `Serializers.GetCoursesIgnoresDuplicateEnrollment` | figures/serializers.py:488-489 | Repeating one of the user's enrollments does not change the list |
| `Serializers.GetCoursesHasNoDuplicates` | figures/serializers.py:491-494 | When no two overviews share a course key, no course key is listed twice |
| `Serializers.GetCoursesKeepsTableOrder` | figures/serializers.py:491-494 | Courses are listed in overview-table order: the list for two concatenated tables is the concatenation of their lists |
| `Serializers.CertificatesFor` | figures/serializers.py:563-566 | Exactly the certificates of the enrollment's user and course |
| `Serializers.ProgressDataFor` | figures/serializers.py:563-605 | `course_completed` is the first certificate's date iff a certificate exists, else `False`. The history is always `[]`. On a lookup failure exactly one `UNSPECIFIED_DATA` record is logged (with username, course id and exception), progress is 0.0 and details are `None`. On success nothing is logged and progress and details are copied through |
| `Serializers.CompletionIsFirstCertificate` | figures/serializers.py:563-566 | A `course_completed` date is that of a certificate of the learner for the course, and no earlier certificate in the table is theirs for it |
| `Serializers.GetProgressData` | figures/serializers.py:555-606 | The branch-wise getter returns `ProgressDataFor`'s data and appends exactly its logged records to the error log |
| `PipelineLogger.ErrorLog.LogError` | figures/serializers.py:588-591 | `log_error` appends exactly one record with the given type and data, and keeps the earlier records |
| `GeneralDataReducer.LoadReplacesData` | frontend/src/redux/reducers/generalDataReducers.js:66-69 | A load sets `data` to the payload and keeps `activeApiFetches` |
| `GeneralDataReducer.AddIncrementsFetches` | frontend/src/redux/reducers/generalDataReducers.js:70-73 | An add raises `activeApiFetches` by exactly 1 and keeps `data` |
| `GeneralDataReducer.RemoveDecrementsFetches` | frontend/src/redux/reducers/generalDataReducers.js:74-77 | A remove lowers `activeApiFetches` by exactly 1 and keeps `data`. There is no floor, so a remove from 0 goes negative |
| `GeneralDataReducer.AddThenRemoveIsIdentity` | frontend/src/redux/reducers/generalDataReducers.js:70-77 | Add then remove, or remove then add, gives back the original state |
| `GeneralDataReducer.OtherActionIsIdentity` | frontend/src/redux/reducers/generalDataReducers.js:78-79 | An action of any type other than the three handled ones returns the state unchanged; `OtherAction` cannot carry a handled type |
| `GeneralDataReducer.UndefinedStateIsInitial` | frontend/src/redux/reducers/generalDataReducers.js:64 | An undefined state behaves as `initialState` |
| `GeneralDataReducer.InitialStateShape` | frontend/src/redux/reducers/generalDataReducers.js:3-62 | `initialState` has no fetches in flight and five metrics. Each has `current_month` 0 and six history entries of value 0 |
| `GeneralDataReducer.DispatchCountsFetches` | frontend/src/redux/reducers/generalDataReducers.js:64-81 | After any sequence of actions, `activeApiFetches` has moved by the number of adds minus the number of removes |
| `GeneralDataReducer.DispatchAppend` | frontend/src/redux/reducers/generalDataReducers.js:64-81 | Dispatching two action sequences in turn is dispatching their concatenation |
| `GeneralDataReducer.LastLoadWins` | frontend/src/redux/reducers/generalDataReducers.js:66-69 | After a load of p followed by actions without a load, `data` is p, whatever came before |
| `GeneralDataReducer.DispatchKeepsLastPayload` | frontend/src/redux/reducers/generalDataReducers.js:64-81 | After any sequence of actions, `data` is the last load's payload, or unchanged when there was no load |
| `GeneralDataReducer.NoLoadKeepsPayload` | frontend/src/redux/reducers/generalDataReducers.js:66-69 | A sequence without a load leaves the payload as it was |
| `GeneralDataReducer.BalancedFetchesRestoreState` | frontend/src/redux/reducers/generalDataReducers.js:70-79 | A sequence with no load and as many removes as adds restores the original state |

`GeneralDataReducer.GeneralData` (`generalData`) and `GeneralDataReducer.InitialState`
(`initialState`) carry no contract of their own: the `GeneralDataReducer` lemma rows
state what they do. `Serializers.StaffEntryOf` (`CourseAccessRoleForGCDSerializer`)
is covered by the `GetStaff` rows.

## Left out

- `Sites.GetSiteForCourse`: standalone resolution uses the configured `SITE_ID`, which the tests never set. Its failure when that site does not exist, and the `AmbiguousSite` error in multisite mode, are the model's choices; no test pins them. So is resolving a course linked only to organizations without a site to no site.
- `Serializers.LanguageProficienciesAsWritten`: the user object's attribute names are an input, because the platform `User` model is not part of this model. `RelatedObjectDoesNotExist` is a `Failure`.

- DRF field declarations and `Meta` classes are presentation behaviour and are not modelled: source renaming, date formats, `DecimalField` limits and `ModelSerializer` introspection. So are the plain fields of the course-details representation (name, code, org, dates, self-paced).
- Django ORM semantics are not modelled. Tables are sequences in query order. `most_recent_for_learner_course` is a lookup that gives a value or a failure with the exception's text.
- `datetime.datetime.utcnow()` is a clock read and becomes a `dateFor` parameter. Each of the four getters reads the clock separately; the model hands all four the same date.
- `get_monthly_history_metric` and the four metric functions live in `figures/metrics.py`, which is not part of this model. They are uninterpreted function parameters. No month arithmetic or history order is assumed.
- `figures/sites.py` is not part of this model. The resolver is specified only through what the tests assert, plus the model's own error choices above.
- The tests about an organizations package without site support (tests/test_sites.py:257-287) probe a third-party library through `TypeError` and `hasattr`. That capability is not modelled.
- `get_profile_image` (figures/serializers.py:700-705) wraps a foreign serializer, and is left out.
- `GeneralSiteMetricsSerializer` (figures/serializers.py:393-423) only returns empty dicts, and is left out.
- `LearnerDetailsSerializer.get_courses` (figures/serializers.py:692-698) only nests another serializer over the user's enrollments. Its per-enrollment logic is `GetProgressData`.
- The view tests, `ActionTypes.js` (its three reducer tags are constructors of `Action`) and the reducer wiring in `reducers/index.js` are not modelled.
- Floating point is not modelled. Progress values are `real`. JavaScript numbers for `activeApiFetches` are unbounded integers, so precision loss past 2^53 is not modelled.
- `Serializers.LatestByDate`: when several records share the latest `date_for`, it picks the first in query order. The database leaves that choice open, so only "a record with the greatest date" is the source's promise.
- `Serializers.CountryRepresentation`: the country is its code string, so Django's `Country` objects and their comparison with `''` are not modelled.
- `Serializers.GetStaff`: a staff entry keeps only user id, username, full name and role, as the role serializer lists them. A missing profile gives no full name.
- `PipelineLogger.ErrorType`: only the unspecified-data kind is modelled. The other `PipelineError` kinds are defined in `figures/models.py`, which is not part of this model.

## Findings

| source | as written | input that shows it | evidently intended | confidence | as-written member | corrected member |
|---|---|---|---|---|---|---|
| figures/serializers.py:482 (and :687) | `hasattr(user, 'profiles')` tests for a `profiles` attribute. The platform user's profile relation is named `profile`, as `get_profile_image` at line 701 uses it. For a user object without a `profiles` attribute (`"profiles" !in attrs`, the hypothesis of `LanguageProficienciesAsWrittenAlwaysEmpty`) the result is always `[]` | a user without a `profiles` attribute whose profile has language "es" | `hasattr(user, 'profile')`, giving `["es"]` | medium, not executed | `Serializers.LanguageProficienciesAsWrittenDropsLanguage` | `Serializers.LanguageProficiencies` |
