/**
 * Site (tenant) resolution, as pinned down by the site-handler tests.
 *
 * The resolver works over an immutable snapshot of the platform's tables and
 * an explicit deployment mode. In standalone mode there is one implicit site
 * and every course, user and enrollment belongs to it. In multisite mode a
 * course belongs to a site through an organization: an `OrganizationCourse`
 * row links the course to an organization, and the organization is linked to
 * its site(s); a user belongs through a user-organization mapping row.
 */
module Sites {
  import opened Wrappers
  import opened Entities

  /** The `IS_FIGURES_MULTISITE` setting, as a value. */
  datatype Mode = Standalone | Multisite

  /** An organization-to-site link. */
  datatype OrgSite = OrgSite(org: OrgId, site: SiteId)
  /** An `OrganizationCourse` row. */
  datatype OrgCourse = OrgCourse(org: OrgId, courseId: CourseKey)
  /** A `UserOrganizationMapping` row. */
  datatype UserOrg = UserOrg(user: UserId, org: OrgId)

  /** The tables the resolver reads; `defaultSite` stands for the configured `SITE_ID`. */
  datatype Snapshot = Snapshot(
    sites: set<SiteId>,
    defaultSite: SiteId,
    courses: set<Course>,
    users: set<User>,
    enrollments: set<Enrollment>,
    orgSites: set<OrgSite>,
    orgCourses: set<OrgCourse>,
    userOrgs: set<UserOrg>)

  /** Fatal configuration errors: no default site, or a course whose organizations span several sites. */
  datatype SiteError = MissingDefaultSite | AmbiguousSite(candidates: set<SiteId>)

  /** Every user-organization mapping names a user of the snapshot (the table's foreign key). */
  ghost predicate MappedUsersExist(snap: Snapshot) {
    forall m :: m in snap.userOrgs ==> exists u :: u in snap.users && u.id == m.user
  }

  /** Every enrollment is in a course of the snapshot (the enrollment factory creates the course overview). */
  ghost predicate EnrolledCoursesExist(snap: Snapshot) {
    forall e :: e in snap.enrollments ==> exists c :: c in snap.courses && c.id == e.courseId
  }

  /** The organizations linked to `site`. */
  function OrgsOfSite(snap: Snapshot, site: SiteId): (r: set<OrgId>)
    ensures forall o :: o in r <==> OrgSite(o, site) in snap.orgSites
  {
    set os | os in snap.orgSites && os.site == site :: os.org
  }

  /** The sites reachable from course `c` through its organization links. */
  function SitesOfCourse(snap: Snapshot, c: CourseKey): (r: set<SiteId>)
    ensures forall s :: s in r <==>
      exists o :: OrgCourse(o, c) in snap.orgCourses && OrgSite(o, s) in snap.orgSites
  {
    var orgs := set oc | oc in snap.orgCourses && oc.courseId == c :: oc.org;
    assert forall o :: o in orgs <==> OrgCourse(o, c) in snap.orgCourses;
    set os | os in snap.orgSites && os.org in orgs :: os.site
  }

  lemma SingletonMembers<T>(s: set<T>, x: T)
    requires |s| == 1 && x in s
    ensures s == {x}
  {
    assert |s - {x}| == 0;
  }

  /** The only element of a one-element set. */
  function TheElement<T>(s: set<T>): (x: T)
    requires |s| == 1
    ensures s == {x}
  {
    assert forall a, b :: a in s && b in s ==> a == b by {
      forall a, b | a in s && b in s ensures a == b {
        SingletonMembers(s, a);
      }
    }
    var x :| x in s;
    SingletonMembers(s, x);
    x
  }

  /**
   * `get_site_for_course`. Standalone: the default site, whatever the course.
   * Multisite: the site of the course's organization, no site for an absent,
   * empty or unlinked course id, and an error when the links name several sites.
   */
  function GetSiteForCourse(snap: Snapshot, mode: Mode, courseId: Option<CourseKey>): (r: Result<Option<SiteId>, SiteError>)
    ensures mode == Standalone ==>
      (r.Failure? <==> snap.defaultSite !in snap.sites) &&
      (r.Success? ==> r.value == Some(snap.defaultSite))
    ensures mode == Multisite && r.Success? && r.value.Some? ==>
      courseId.Some? && SitesOfCourse(snap, courseId.value) == {r.value.value}
    ensures mode == Multisite ==>
      (r == Success(None) <==>
        courseId == None || courseId == Some("") || SitesOfCourse(snap, courseId.value) == {})
    ensures mode == Multisite ==>
      (r.Failure? <==>
        courseId.Some? && courseId.value != "" && |SitesOfCourse(snap, courseId.value)| > 1)
  {
    match mode
    case Standalone =>
      if snap.defaultSite in snap.sites then Success(Some(snap.defaultSite))
      else Failure(MissingDefaultSite)
    case Multisite =>
      match courseId
      case None => Success(None)
      case Some(c) =>
        if c == "" then Success(None)
        else
          var candidates := SitesOfCourse(snap, c);
          if |candidates| == 0 then Success(None)
          else if |candidates| == 1 then Success(Some(TheElement(candidates)))
          else Failure(AmbiguousSite(candidates))
  }

  /** `get_course_keys_for_site`: every course in standalone mode, the courses linked to the site's organizations in multisite mode. */
  function GetCourseKeysForSite(snap: Snapshot, mode: Mode, site: SiteId): (r: set<CourseKey>)
    ensures mode == Standalone ==> forall k :: k in r <==> exists c :: c in snap.courses && c.id == k
    ensures mode == Multisite ==> forall k :: k in r <==>
      exists o :: OrgSite(o, site) in snap.orgSites && OrgCourse(o, k) in snap.orgCourses
  {
    match mode
    case Standalone => set c | c in snap.courses :: c.id
    case Multisite =>
      var orgs := OrgsOfSite(snap, site);
      set oc | oc in snap.orgCourses && oc.org in orgs :: oc.courseId
  }

  /** `get_courses_for_site`: the course overviews whose key is one of the site's course keys. */
  function GetCoursesForSite(snap: Snapshot, mode: Mode, site: SiteId): (r: set<Course>)
    ensures forall c :: c in r <==> c in snap.courses && c.id in GetCourseKeysForSite(snap, mode, site)
  {
    var keys := GetCourseKeysForSite(snap, mode, site);
    set c | c in snap.courses && c.id in keys
  }

  /** `get_user_ids_for_site`: every user id in standalone mode, the ids of the users mapped to the site's organizations in multisite mode. */
  function GetUserIdsForSite(snap: Snapshot, mode: Mode, site: SiteId): (r: set<UserId>)
    ensures mode == Standalone ==> forall id :: id in r <==> exists u :: u in snap.users && u.id == id
    ensures mode == Multisite ==> forall id :: id in r <==>
      exists o :: OrgSite(o, site) in snap.orgSites && UserOrg(id, o) in snap.userOrgs
  {
    match mode
    case Standalone => set u | u in snap.users :: u.id
    case Multisite =>
      var orgs := OrgsOfSite(snap, site);
      set m | m in snap.userOrgs && m.org in orgs :: m.user
  }

  /** `get_users_for_site`: the user records whose id is one of the site's user ids. */
  function GetUsersForSite(snap: Snapshot, mode: Mode, site: SiteId): (r: set<User>)
    ensures forall u :: u in r <==> u in snap.users && u.id in GetUserIdsForSite(snap, mode, site)
  {
    var ids := GetUserIdsForSite(snap, mode, site);
    set u | u in snap.users && u.id in ids
  }

  /** `get_course_enrollments_for_site`: the enrollments in one of the site's courses. */
  function GetCourseEnrollmentsForSite(snap: Snapshot, mode: Mode, site: SiteId): (r: set<Enrollment>)
    ensures forall e :: e in r <==> e in snap.enrollments && e.courseId in GetCourseKeysForSite(snap, mode, site)
  {
    var keys := GetCourseKeysForSite(snap, mode, site);
    set e | e in snap.enrollments && e.courseId in keys
  }

  // ---------------------------------------------------------------------------
  // Standalone mode
  // ---------------------------------------------------------------------------

  /** With exactly one site, configured as the default, every course resolves to it. */
  lemma StandaloneSiteForAnyCourse(snap: Snapshot, s: SiteId, courseId: Option<CourseKey>)
    requires snap.sites == {s} && snap.defaultSite in snap.sites
    ensures GetSiteForCourse(snap, Standalone, courseId) == Success(Some(s))
  {
  }

  /** The site's course keys are the keys of all courses; none when there are no courses. */
  lemma StandaloneCourseKeysAreAllCourses(snap: Snapshot, site: SiteId)
    ensures GetCourseKeysForSite(snap, Standalone, site) == set c | c in snap.courses :: c.id
    ensures snap.courses == {} ==> GetCourseKeysForSite(snap, Standalone, site) == {}
  {
  }

  /** The site's courses are all courses. */
  lemma StandaloneCoursesAreAllCourses(snap: Snapshot, site: SiteId)
    ensures GetCoursesForSite(snap, Standalone, site) == snap.courses
  {
  }

  /** The site's user ids are all user ids, and its users are all users. */
  lemma StandaloneUsersAreAllUsers(snap: Snapshot, site: SiteId)
    ensures GetUserIdsForSite(snap, Standalone, site) == set u | u in snap.users :: u.id
    ensures GetUsersForSite(snap, Standalone, site) == snap.users
  {
  }

  /** The site's enrollments are all enrollments, provided every enrolled course has an overview. */
  lemma StandaloneEnrollmentsAreAllEnrollments(snap: Snapshot, site: SiteId)
    requires EnrolledCoursesExist(snap)
    ensures GetCourseEnrollmentsForSite(snap, Standalone, site) == snap.enrollments
  {
  }

  // ---------------------------------------------------------------------------
  // Both modes
  // ---------------------------------------------------------------------------

  /** The ids of the site's users are exactly the site's user ids (given the mapping table's foreign key). */
  lemma {:induction false} UserIdsAreIdsOfUsers(snap: Snapshot, mode: Mode, site: SiteId)
    requires MappedUsersExist(snap)
    ensures (set u | u in GetUsersForSite(snap, mode, site) :: u.id) == GetUserIdsForSite(snap, mode, site)
  {
    var users := GetUsersForSite(snap, mode, site);
    var ids := GetUserIdsForSite(snap, mode, site);
    forall id | id in ids ensures exists u :: u in users && u.id == id {
      match mode
      case Standalone =>
      case Multisite =>
        var o :| OrgSite(o, site) in snap.orgSites && UserOrg(id, o) in snap.userOrgs;
        var u :| u in snap.users && u.id == UserOrg(id, o).user;
        assert u in users;
    }
  }

  /** A site without course keys has no courses and no enrollments. */
  lemma NoCourseKeysNoEnrollments(snap: Snapshot, mode: Mode, site: SiteId)
    requires GetCourseKeysForSite(snap, mode, site) == {}
    ensures GetCoursesForSite(snap, mode, site) == {}
    ensures GetCourseEnrollmentsForSite(snap, mode, site) == {}
  {
  }

  // ---------------------------------------------------------------------------
  // Multisite mode
  // ---------------------------------------------------------------------------

  /** A course linked only to organization `o`, whose only site is `s`, resolves to `s`. */
  lemma {:induction false} MultisiteLinkedCourseResolves(snap: Snapshot, o: OrgId, s: SiteId, c: CourseKey)
    requires c != ""
    requires OrgCourse(o, c) in snap.orgCourses && OrgSite(o, s) in snap.orgSites
    requires forall oc :: oc in snap.orgCourses && oc.courseId == c ==> oc.org == o
    requires forall os :: os in snap.orgSites && os.org == o ==> os.site == s
    ensures GetSiteForCourse(snap, Multisite, Some(c)) == Success(Some(s))
  {
    var candidates := SitesOfCourse(snap, c);
    forall t | t in candidates ensures t == s {
      var o' :| OrgCourse(o', c) in snap.orgCourses && OrgSite(o', t) in snap.orgSites;
      assert OrgCourse(o', c).org == o;
      assert OrgSite(o', t).site == s;
    }
    assert candidates == {s};
  }

  /** A course with no `OrganizationCourse` row resolves to no site. */
  lemma MultisiteUnlinkedCourseHasNoSite(snap: Snapshot, c: CourseKey)
    requires forall oc :: oc in snap.orgCourses ==> oc.courseId != c
    ensures GetSiteForCourse(snap, Multisite, Some(c)) == Success(None)
  {
  }

  /** An absent or empty course id resolves to no site. */
  lemma MultisiteBlankCourseHasNoSite(snap: Snapshot)
    ensures GetSiteForCourse(snap, Multisite, None) == Success(None)
    ensures GetSiteForCourse(snap, Multisite, Some("")) == Success(None)
  {
  }

  /** For a site whose only organization is `o`: its course keys, courses and enrollments are exactly those of the courses linked to `o`. */
  lemma MultisiteScopeOfSingleOrgSite(snap: Snapshot, site: SiteId, o: OrgId)
    requires forall os :: os in snap.orgSites && os.site == site ==> os.org == o
    requires OrgSite(o, site) in snap.orgSites
    ensures GetCourseKeysForSite(snap, Multisite, site) == set oc | oc in snap.orgCourses && oc.org == o :: oc.courseId
    ensures GetCoursesForSite(snap, Multisite, site) == set c | c in snap.courses && OrgCourse(o, c.id) in snap.orgCourses
    ensures GetCourseEnrollmentsForSite(snap, Multisite, site) ==
      set e | e in snap.enrollments && OrgCourse(o, e.courseId) in snap.orgCourses
    ensures (forall oc :: oc in snap.orgCourses ==> oc.org != o) ==>
      GetCourseKeysForSite(snap, Multisite, site) == {} && GetCourseEnrollmentsForSite(snap, Multisite, site) == {}
  {
    assert OrgsOfSite(snap, site) == {o};
  }

  /** For a site whose only organization is `o`: its users are exactly the users mapped to `o`. */
  lemma MultisiteUsersOfSingleOrgSite(snap: Snapshot, site: SiteId, o: OrgId)
    requires forall os :: os in snap.orgSites && os.site == site ==> os.org == o
    requires OrgSite(o, site) in snap.orgSites
    ensures GetUserIdsForSite(snap, Multisite, site) == set m | m in snap.userOrgs && m.org == o :: m.user
    ensures GetUsersForSite(snap, Multisite, site) == set u | u in snap.users && UserOrg(u.id, o) in snap.userOrgs
  {
    assert OrgsOfSite(snap, site) == {o};
  }

  /**
   * The two directions of resolution agree: a course that resolves to `s` is
   * one of `s`'s course keys, and a non-empty course key of `s` whose links
   * reach no other site resolves to `s`.
   */
  lemma {:induction false} SiteOfCourseMatchesCourseKeys(snap: Snapshot, s: SiteId, c: CourseKey)
    ensures GetSiteForCourse(snap, Multisite, Some(c)) == Success(Some(s)) ==>
      c in GetCourseKeysForSite(snap, Multisite, s)
    ensures c != "" && c in GetCourseKeysForSite(snap, Multisite, s) && |SitesOfCourse(snap, c)| == 1 ==>
      GetSiteForCourse(snap, Multisite, Some(c)) == Success(Some(s))
  {
    if GetSiteForCourse(snap, Multisite, Some(c)) == Success(Some(s)) {
      assert s in SitesOfCourse(snap, c);
    }
    if c != "" && c in GetCourseKeysForSite(snap, Multisite, s) && |SitesOfCourse(snap, c)| == 1 {
      var o :| OrgSite(o, s) in snap.orgSites && OrgCourse(o, c) in snap.orgCourses;
      assert s in SitesOfCourse(snap, c);
      SingletonMembers(SitesOfCourse(snap, c), s);
    }
  }
}
