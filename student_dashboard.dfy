/**
 * The student dashboard: "My Courses" (approved enrollments joined with the
 * catalog), the per-course status with its Enroll button or badge, the enroll
 * request, list loading, the loading/error precedence and the sidebar logout.
 */
module StudentDashboard {
  import opened Wrappers
  import opened Js
  import opened Api
  import opened Seqs
  import Storage
  import AssetUrl

  const CloudBase := "https://res.cloudinary.com/dlev4b4pu"

  /** `getThumbnailUrl` */
  function GetThumbnailUrl(path: MaybeText): (r: Option<string>)
    ensures r.None? <==> !(path.Text? && path.s != "")
    ensures r.Some? && AssetUrl.StartsWith(path.s, "http") ==> r.value == path.s
    ensures r.Some? && !AssetUrl.StartsWith(path.s, "http") ==> AssetUrl.StartsWith(r.value, "https://res.cloudinary.com/dlev4b4pu/")
  {
    AssetUrl.Resolve(CloudBase, path)
  }

  predicate Approved(en: Enrollment) {
    en.status == "approved"
  }

  function CourseWithId(id: int): Course -> bool {
    (c: Course) => c.id == id
  }

  function ForCourse(id: int): Enrollment -> bool {
    (en: Enrollment) => en.course == id
  }

  /** `courses.find(c => c.id === en.course)` */
  function CourseOf(courses: seq<Course>, en: Enrollment): Option<Course> {
    Find(courses, CourseWithId(en.course))
  }

  /** Each enrollment's catalog course, in order; enrollments whose course is not in the catalog are skipped. */
  function Join(ens: seq<Enrollment>, courses: seq<Course>): (r: seq<Course>)
    ensures |r| <= |ens|
    ensures forall k :: 0 <= k < |r| ==>
      r[k] in courses && exists i :: 0 <= i < |ens| && ens[i].course == r[k].id
    ensures forall en :: en in ens && CourseOf(courses, en).Some? ==> CourseOf(courses, en).value in r
  {
    if ens == [] then []
    else
      var head := match CourseOf(courses, ens[0]) case Some(c) => [c] case None => [];
      var tail := Join(ens[1..], courses);
      assert forall k :: 0 <= k < |tail| ==> exists i :: 0 <= i < |ens| && ens[i].course == tail[k].id by {
        forall k | 0 <= k < |tail| ensures exists i :: 0 <= i < |ens| && ens[i].course == tail[k].id {
          var i :| 0 <= i < |ens[1..]| && ens[1..][i].course == tail[k].id;
          assert ens[i + 1].course == tail[k].id;
        }
      }
      assert forall en :: en in ens && CourseOf(courses, en).Some? ==> CourseOf(courses, en).value in head + tail by {
        forall en | en in ens && CourseOf(courses, en).Some?
          ensures CourseOf(courses, en).value in head + tail
        {
          if en != ens[0] {
            var i :| 0 <= i < |ens| && ens[i] == en;
            assert ens[1..][i - 1] == en;
          }
        }
      }
      head + tail
  }

  /** "My Courses": only approved enrollments, each shown with its catalog course, in enrollment order. */
  function MyCourses(ens: seq<Enrollment>, courses: seq<Course>): (r: seq<Course>)
    ensures |r| <= |Filter(ens, Approved)|
    ensures forall k :: 0 <= k < |r| ==>
      r[k] in courses && exists i :: 0 <= i < |ens| && Approved(ens[i]) && ens[i].course == r[k].id
    ensures forall en :: en in ens && Approved(en) && CourseOf(courses, en).Some? ==> CourseOf(courses, en).value in r
  {
    var approved := Filter(ens, Approved);
    var r := Join(approved, courses);
    forall k | 0 <= k < |r|
      ensures exists i :: 0 <= i < |ens| && Approved(ens[i]) && ens[i].course == r[k].id
    {
      var j :| 0 <= j < |approved| && approved[j].course == r[k].id;
      assert approved[j] in ens;
    }
    r
  }

  /** When every enrollment's course is in the catalog, nothing is skipped: the k-th entry is the k-th enrollment's course. */
  lemma {:induction false} JoinComplete(ens: seq<Enrollment>, courses: seq<Course>)
    requires forall i :: 0 <= i < |ens| ==> CourseOf(courses, ens[i]).Some?
    ensures |Join(ens, courses)| == |ens|
    ensures forall k :: 0 <= k < |ens| ==> Join(ens, courses)[k] == CourseOf(courses, ens[k]).value
  {
    if ens != [] {
      JoinComplete(ens[1..], courses);
    }
  }

  /** The join keeps enrollment order: it distributes over concatenation. */
  lemma {:induction false} JoinConcat(a: seq<Enrollment>, b: seq<Enrollment>, courses: seq<Course>)
    ensures Join(a + b, courses) == Join(a, courses) + Join(b, courses)
  {
    if a == [] {
      assert a + b == b;
    } else {
      assert (a + b)[1..] == a[1..] + b;
      JoinConcat(a[1..], b, courses);
    }
  }

  /** `enrollments.find(en => en.course === course.id)` */
  function EnrollmentFor(ens: seq<Enrollment>, courseId: int): (r: Option<Enrollment>)
    ensures r.None? <==> forall en :: en in ens ==> en.course != courseId
    ensures r.Some? ==> r.value in ens && r.value.course == courseId
  {
    Find(ens, ForCourse(courseId))
  }

  /** `enrollment?.status || null`: the status of the first enrollment for the course, if it is non-empty. */
  function StatusOf(ens: seq<Enrollment>, courseId: int): (r: Option<string>)
    ensures r.Some? ==> r.value != ""
    ensures r.None? <==> EnrollmentFor(ens, courseId).None? || EnrollmentFor(ens, courseId).value.status == ""
    ensures (forall i :: 0 <= i < |ens| ==> ens[i].course != courseId) ==> r.None?
  {
    match EnrollmentFor(ens, courseId)
    case None => None
    case Some(en) => if en.status == "" then None else Some(en.status)
  }

  /** The status shown for a course is that of the FIRST enrollment for it. */
  lemma StatusOfFirst(ens: seq<Enrollment>, courseId: int, i: nat)
    requires i < |ens| && ens[i].course == courseId
    requires forall j :: 0 <= j < i ==> ens[j].course != courseId
    ensures StatusOf(ens, courseId) == if ens[i].status == "" then None else Some(ens[i].status)
  {
    FindFirst(ens, ForCourse(courseId), i);
  }

  datatype BadgeColor = Green | Red | Yellow

  /** A course card shows either the Enroll button or a status badge, never both. */
  datatype CardAction = EnrollButton | StatusBadge(color: BadgeColor, caption: string)

  datatype Card = Card(course: Course, action: CardAction)

  /** `c.toUpperCase()` on one character; only ASCII letters are mapped. */
  function UpperAscii(c: char): char {
    if 'a' <= c <= 'z' then (c as int - 32) as char else c
  }

  /** `s.charAt(0).toUpperCase() + s.slice(1)` */
  function Capitalize(s: string): (r: string)
    ensures |r| == |s|
    ensures s != "" ==> r[0] == UpperAscii(s[0]) && r[1..] == s[1..]
  {
    if s == "" then "" else [UpperAscii(s[0])] + s[1..]
  }

  /** Green for "approved", red for "rejected", yellow for every other status. */
  function ColorOf(status: string): (c: BadgeColor)
    ensures c.Green? <==> status == "approved"
    ensures c.Red? <==> status == "rejected"
  {
    if status == "approved" then Green
    else if status == "rejected" then Red
    else Yellow
  }

  /** The Enroll button exactly when there is no status; otherwise the badge for the status. */
  function ActionFor(status: Option<string>): (a: CardAction)
    ensures a.EnrollButton? <==> status.None?
    ensures a.StatusBadge? ==> a.color == ColorOf(status.value) && a.caption == Capitalize(status.value)
  {
    match status
    case None => EnrollButton
    case Some(s) => StatusBadge(ColorOf(s), Capitalize(s))
  }

  /** "Available Courses": one card per catalog course, in catalog order, with the action for its status. */
  function AvailableCards(courses: seq<Course>, ens: seq<Enrollment>): (r: seq<Card>)
    ensures |r| == |courses|
    ensures forall k :: 0 <= k < |r| ==> r[k].course == courses[k]
    ensures forall k :: 0 <= k < |r| ==>
      (r[k].action.EnrollButton? <==> EnrollmentFor(ens, courses[k].id).None? || EnrollmentFor(ens, courses[k].id).value.status == "")
    ensures forall k :: 0 <= k < |r| ==> r[k].action == ActionFor(StatusOf(ens, courses[k].id))
  {
    seq(|courses|, k requires 0 <= k < |courses| => Card(courses[k], ActionFor(StatusOf(ens, courses[k].id))))
  }

  /** A rejected enrollment is terminal: the course shows a red "Rejected" badge and no Enroll button. */
  lemma RejectedBlocksEnroll(ens: seq<Enrollment>, courseId: int, i: nat)
    requires i < |ens| && ens[i].course == courseId && ens[i].status == "rejected"
    requires forall j :: 0 <= j < i ==> ens[j].course != courseId
    ensures ActionFor(StatusOf(ens, courseId)) == StatusBadge(Red, "Rejected")
  {
    StatusOfFirst(ens, courseId, i);
    assert Capitalize("rejected") == "Rejected";
  }

  datatype EnrollBody = EnrollBody(student: IdValue, course: int, status: string)

  datatype DashboardView = LoadingScreen | ErrorScreen(text: string) | Dashboard(message: string, myCourses: seq<Course>, cards: seq<Card>)

  const EnrollSentText := "Enrollment request sent \U{2705}"

  class StudentDashboardPage {
    const user: Option<User>
    var courses: seq<Course>
    var enrollments: seq<Enrollment>
    var loading: bool
    var error: string
    var message: string

    constructor (user: Option<User>)
      ensures this.user == user && courses == [] && enrollments == [] && loading && error == "" && message == ""
    {
      this.user := user;
      courses := [];
      enrollments := [];
      loading := true;
      error := "";
      message := "";
    }

    /** `fetchCourses` */
    method LoadCourses(outcome: Response<ListPayload<Course>>)
      modifies this
      ensures match LoadList(outcome, "Failed to fetch courses", "Error fetching courses")
        case Loaded(list) => courses == list && error == old(error)
        case LoadError(text) => courses == old(courses) && error == text
      ensures enrollments == old(enrollments) && loading == old(loading) && message == old(message)
    {
      match LoadList(outcome, "Failed to fetch courses", "Error fetching courses")
      case Loaded(list) => courses := list;
      case LoadError(text) => error := text;
    }

    /** `fetchEnrollments`: without a user, reading `user.id` throws before any request; loading ends either way. */
    method LoadEnrollments(outcome: Response<ListPayload<Enrollment>>)
      modifies this
      ensures !loading
      ensures user.None? ==> enrollments == old(enrollments) && error == "Error fetching enrollments"
      ensures user.Some? ==>
        match LoadList(outcome, "Failed to fetch enrollments", "Error fetching enrollments")
        case Loaded(list) => enrollments == list && error == old(error)
        case LoadError(text) => enrollments == old(enrollments) && error == text
      ensures courses == old(courses) && message == old(message)
    {
      if user.None? {
        error := "Error fetching enrollments";
      } else {
        match LoadList(outcome, "Failed to fetch enrollments", "Error fetching enrollments")
        case Loaded(list) => enrollments := list;
        case LoadError(text) => error := text;
      }
      loading := false;
    }

    /**
     * `handleEnroll`: the request asks for a "pending" enrollment of this user in
     * the course; success shows a message and reloads enrollments, any failure an
     * error. Neither clears the other.
     */
    method Enroll(courseId: int, outcome: Response<()>) returns (body: Option<EnrollBody>, reload: bool)
      modifies this
      ensures body == if user.Some? then Some(EnrollBody(user.value.id, courseId, "pending")) else None
      ensures reload <==> body.Some? && outcome.Ok?
      ensures reload ==> message == EnrollSentText && error == old(error)
      ensures !reload ==> message == old(message) && error == "Error enrolling in course"
      ensures courses == old(courses) && enrollments == old(enrollments) && loading == old(loading)
    {
      reload := false;
      if user.None? {
        body := None;
        error := "Error enrolling in course";
        return;
      }
      body := Some(EnrollBody(user.value.id, courseId, "pending"));
      if !outcome.Ok? {
        error := "Error enrolling in course";
        return;
      }
      message := EnrollSentText;
      reload := true;
    }

    /** What the page renders: the loading screen first, then any error instead of the whole dashboard. */
    function View(): (v: DashboardView)
      reads this
      ensures v.LoadingScreen? <==> loading
      ensures v.ErrorScreen? <==> !loading && error != ""
      ensures v.Dashboard? ==> v.myCourses == MyCourses(enrollments, courses) && v.cards == AvailableCards(courses, enrollments)
    {
      if loading then LoadingScreen
      else if error != "" then ErrorScreen(error)
      else Dashboard(message, MyCourses(enrollments, courses), AvailableCards(courses, enrollments))
    }
  }

  /** The keys the student dashboard's logout removes; "refreshToken" is not among them. */
  const StudentLogoutKeys: set<string> := {"user", "accessToken"}

  /** `handleLogout`: removes "user" and "accessToken" only, then goes to "/login". */
  method Logout(store: Storage.BrowserStorage) returns (nav: string)
    modifies store
    ensures store.items == old(store.items) - StudentLogoutKeys
    ensures nav == "/login"
  {
    store.RemoveItem("user");
    store.RemoveItem("accessToken");
    nav := "/login";
  }
}
