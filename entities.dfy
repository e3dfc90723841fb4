/** The platform's records that the analytics core only reads. */
module Entities {
  import opened Wrappers

  type SiteId = nat
  type OrgId = nat
  type UserId = nat
  /** A course key in its string form, such as "course-v1:Org+Code+Run". */
  type CourseKey = string
  /** A point in time, as a count of some fixed unit. */
  type Date = int

  /** The learner profile row; a user may have none. */
  datatype Profile = Profile(name: string, country: Option<string>, language: Option<string>)

  datatype User = User(id: UserId, username: string, profile: Option<Profile>)

  /** A course overview: its key and display data. */
  datatype Course = Course(id: CourseKey, displayName: string, org: string)

  datatype Enrollment = Enrollment(id: nat, user: User, courseId: CourseKey)
}
