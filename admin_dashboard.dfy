/**
 * The admin dashboard: "Your Courses", the pending-enrollment list, the
 * create-course form, course deletion and approving or rejecting an enrollment.
 */
module AdminDashboard {
  import opened Wrappers
  import opened Js
  import opened Api
  import opened Seqs
  import AssetUrl
  import CourseDetails

  const CloudBase := "https://res.cloudinary.com/dlev4b4pu"

  /** `getThumbnailUrl` */
  function GetThumbnailUrl(path: MaybeText): (r: Option<string>)
    ensures r.None? <==> !(path.Text? && path.s != "")
    ensures r.Some? && AssetUrl.StartsWith(path.s, "http") ==> r.value == path.s
    ensures r.Some? && !AssetUrl.StartsWith(path.s, "http") ==> AssetUrl.StartsWith(r.value, "https://res.cloudinary.com/dlev4b4pu/")
  {
    AssetUrl.Resolve(CloudBase, path)
  }

  /** `c => c.instructor === user?.id`: strict equality, so an embedded instructor object never matches. */
  function TaughtBy(uid: IdValue): (p: Course -> bool)
    ensures forall c: Course :: p(c) <==> c.instructor.Raw? && c.instructor.id == uid
  {
    (c: Course) => c.instructor == Raw(uid)
  }

  /** "Your Courses": exactly the catalog courses whose raw instructor value is strictly equal to the user's id, in order. */
  function YourCourses(courses: seq<Course>, user: Option<User>): (r: seq<Course>)
    ensures |r| <= |courses|
    ensures forall c :: c in r <==> c in courses && c.instructor == Raw(UserId(user))
  {
    Filter(courses, TaughtBy(UserId(user)))
  }

  /** For numeric ids the strict rule is stricter than the course page's ownership rule, never looser. */
  lemma YourCoursesAreOwned(courses: seq<Course>, user: User, c: Course)
    requires user.id.Num? && c in YourCourses(courses, Some(user))
    ensures CourseDetails.IsOwner(Some(c), Some(user))
  {
  }

  /** The two ownership rules differ: an embedded instructor, or an id sent as text, owns the course page but is not listed here. */
  lemma OwnershipRulesDiffer(user: User, c1: Course, c2: Course)
    requires user.id == Num(7) && c1.instructor == Embedded(Num(7)) && c2.instructor == Raw(Str("7"))
    ensures CourseDetails.IsOwner(Some(c1), Some(user)) && YourCourses([c1], Some(user)) == []
    ensures CourseDetails.IsOwner(Some(c2), Some(user)) && YourCourses([c2], Some(user)) == []
  {
    assert NumberOf(Str("7")) == Some(7);
  }

  /** Without a stored user, `undefined === undefined` lists every course whose instructor is missing. */
  lemma NoUserListsUnassigned(c: Course)
    requires c.instructor == Raw(Undefined)
    ensures YourCourses([c], None) == [c]
  {
  }

  predicate Pending(en: Enrollment) {
    en.status == "pending"
  }

  /** The pending list: exactly the enrollments with status "pending", in order. */
  function PendingEnrollments(ens: seq<Enrollment>): (r: seq<Enrollment>)
    ensures forall en :: en in r <==> en in ens && en.status == "pending"
    ensures forall k :: 0 <= k < |r| ==> r[k].status == "pending"
  {
    Filter(ens, Pending)
  }

  datatype PendingSection = NoPendingNote | PendingList(items: seq<Enrollment>)

  /** "No pending enrollments" exactly when no enrollment is pending; otherwise the pending list. */
  function PendingView(ens: seq<Enrollment>): (v: PendingSection)
    ensures v.NoPendingNote? <==> forall k :: 0 <= k < |ens| ==> ens[k].status != "pending"
    ensures v.PendingList? ==> v.items == PendingEnrollments(ens) && |v.items| > 0
  {
    var pending := PendingEnrollments(ens);
    if |pending| > 0 then
      assert pending[0] in ens;
      PendingList(pending)
    else
      assert forall k :: 0 <= k < |ens| ==> ens[k] !in pending;
      NoPendingNote
  }

  /** The create-course form's state. */
  datatype CourseForm = CourseForm(title: string, description: string, startDate: string, endDate: string, thumbnail: Option<FileRef>)

  const EmptyCourseForm := CourseForm("", "", "", "", None)

  datatype FormValue = TextValue(s: string) | FileValue(f: FileRef)

  datatype FormEntry = FormEntry(name: string, value: FormValue)

  function Named(name: string): FormEntry -> bool {
    (e: FormEntry) => e.name == name
  }

  /** `formData.get(name)`: the first value appended under `name`. */
  function Field(entries: seq<FormEntry>, name: string): Option<FormValue> {
    match Find(entries, Named(name))
    case Some(e) => Some(e.value)
    case None => None
  }

  /** The multipart body of `handleCreateCourse`, in the order the fields are appended. */
  function CourseFormData(form: CourseForm, user: Option<User>): (r: seq<FormEntry>)
    ensures |r| == 4 + (if form.thumbnail.Some? then 1 else 0) + (if Truthy(UserId(user)) then 1 else 0)
  {
    var fixed := [
      FormEntry("title", TextValue(form.title)),
      FormEntry("description", TextValue(form.description)),
      FormEntry("start_date", TextValue(form.startDate)),
      FormEntry("end_date", TextValue(form.endDate))];
    var thumb := if form.thumbnail.Some? then [FormEntry("thumbnail", FileValue(form.thumbnail.value))] else [];
    var instructor := if Truthy(UserId(user)) then [FormEntry("instructor", TextValue(IdText(UserId(user))))] else [];
    fixed + thumb + instructor
  }

  /** `Field` finds the first entry under a name. */
  lemma FieldAt(entries: seq<FormEntry>, name: string, i: nat)
    requires i < |entries| && entries[i].name == name
    requires forall j :: 0 <= j < i ==> entries[j].name != name
    ensures Field(entries, name) == Some(entries[i].value)
  {
    FindFirst(entries, Named(name), i);
  }

  /** `Field` finds nothing under a name no entry carries. */
  lemma FieldAbsent(entries: seq<FormEntry>, name: string)
    requires forall j :: 0 <= j < |entries| ==> entries[j].name != name
    ensures Field(entries, name) == None
  {
    assert forall e :: e in entries ==> !Named(name)(e);
  }

  /** The create-course body always carries title, description and both dates. */
  lemma CourseFormDataFixedFields(form: CourseForm, user: Option<User>)
    ensures Field(CourseFormData(form, user), "title") == Some(TextValue(form.title))
    ensures Field(CourseFormData(form, user), "description") == Some(TextValue(form.description))
    ensures Field(CourseFormData(form, user), "start_date") == Some(TextValue(form.startDate))
    ensures Field(CourseFormData(form, user), "end_date") == Some(TextValue(form.endDate))
  {
    var r := CourseFormData(form, user);
    assert r[0].name == "title" && r[1].name == "description" && r[2].name == "start_date" && r[3].name == "end_date";
    FieldAt(r, "title", 0);
    FieldAt(r, "description", 1);
    FieldAt(r, "start_date", 2);
    FieldAt(r, "end_date", 3);
  }

  /** The thumbnail is sent only when one is chosen, and the instructor only when the user's id is truthy. */
  lemma CourseFormDataOptionalFields(form: CourseForm, user: Option<User>)
    ensures Field(CourseFormData(form, user), "thumbnail") ==
      if form.thumbnail.Some? then Some(FileValue(form.thumbnail.value)) else None
    ensures Field(CourseFormData(form, user), "instructor") ==
      if Truthy(UserId(user)) then Some(TextValue(IdText(UserId(user)))) else None
  {
    var r := CourseFormData(form, user);
    var n := if form.thumbnail.Some? then 5 else 4;
    assert forall j :: 0 <= j < 4 ==> r[j].name != "thumbnail" && r[j].name != "instructor";
    if form.thumbnail.Some? {
      assert r[4] == FormEntry("thumbnail", FileValue(form.thumbnail.value));
      FieldAt(r, "thumbnail", 4);
    } else {
      FieldAbsent(r, "thumbnail");
    }
    if Truthy(UserId(user)) {
      assert r[n] == FormEntry("instructor", TextValue(IdText(UserId(user))));
      FieldAt(r, "instructor", n);
    } else {
      FieldAbsent(r, "instructor");
    }
  }

  /** The PATCH body of `handleUpdateEnrollment`. */
  datatype StatusPatch = StatusPatch(status: string)

  class AdminDashboardPage {
    const user: Option<User>
    var courses: seq<Course>
    var enrollments: seq<Enrollment>
    var loading: bool
    var error: string
    var message: string
    var form: CourseForm

    constructor (user: Option<User>)
      ensures this.user == user && courses == [] && enrollments == [] && loading
      ensures error == "" && message == "" && form == EmptyCourseForm
    {
      this.user := user;
      courses := [];
      enrollments := [];
      loading := true;
      error := "";
      message := "";
      form := EmptyCourseForm;
    }

    /** `fetchCourses` */
    method LoadCourses(outcome: Response<ListPayload<Course>>)
      modifies this
      ensures match LoadList(outcome, "Failed to fetch courses", "Error fetching courses")
        case Loaded(list) => courses == list && error == old(error)
        case LoadError(text) => courses == old(courses) && error == text
      ensures enrollments == old(enrollments) && loading == old(loading) && message == old(message) && form == old(form)
    {
      match LoadList(outcome, "Failed to fetch courses", "Error fetching courses")
      case Loaded(list) => courses := list;
      case LoadError(text) => error := text;
    }

    /** `fetchEnrollments`: loading ends either way. */
    method LoadEnrollments(outcome: Response<ListPayload<Enrollment>>)
      modifies this
      ensures !loading
      ensures match LoadList(outcome, "Failed to fetch enrollments", "Error fetching enrollments")
        case Loaded(list) => enrollments == list && error == old(error)
        case LoadError(text) => enrollments == old(enrollments) && error == text
      ensures courses == old(courses) && message == old(message) && form == old(form)
    {
      match LoadList(outcome, "Failed to fetch enrollments", "Error fetching enrollments") {
        case Loaded(list) => enrollments := list;
        case LoadError(text) => error := text;
      }
      loading := false;
    }

    /**
     * `handleCreateCourse`: error and message are cleared, the form is sent; on
     * success the form is emptied and the course list reloaded.
     */
    method CreateCourse(outcome: Response<()>) returns (body: seq<FormEntry>, reload: bool)
      modifies this
      ensures body == CourseFormData(old(form), user)
      ensures reload <==> outcome.Ok?
      ensures outcome.Ok? ==> message == "Course created successfully" && error == "" && form == EmptyCourseForm
      ensures !outcome.Ok? ==> error == "Error creating course" && message == "" && form == old(form)
      ensures courses == old(courses) && enrollments == old(enrollments) && loading == old(loading)
    {
      error := "";
      message := "";
      body := CourseFormData(form, user);
      reload := outcome.Ok?;
      if !outcome.Ok? {
        error := "Error creating course";
        return;
      }
      message := "Course created successfully";
      form := EmptyCourseForm;
    }

    /** `handleDeleteCourse` */
    method DeleteCourse(courseId: int, outcome: Response<()>) returns (reload: bool)
      modifies this
      ensures reload <==> outcome.Ok?
      ensures outcome.Ok? ==> message == "Course deleted successfully" && error == old(error)
      ensures !outcome.Ok? ==> error == "Error deleting course" && message == old(message)
      ensures courses == old(courses) && enrollments == old(enrollments) && loading == old(loading) && form == old(form)
    {
      reload := outcome.Ok?;
      if outcome.Ok? {
        message := "Course deleted successfully";
      } else {
        error := "Error deleting course";
      }
    }

    /** `handleUpdateEnrollment`: sends `{status}`; success reports "Enrollment <status>" and reloads. */
    method UpdateEnrollment(enrollmentId: int, status: string, outcome: Response<()>) returns (body: StatusPatch, reload: bool)
      modifies this
      ensures body == StatusPatch(status)
      ensures reload <==> outcome.Ok?
      ensures outcome.Ok? ==> message == "Enrollment " + status && error == old(error)
      ensures !outcome.Ok? ==> error == "Error updating enrollment" && message == old(message)
      ensures courses == old(courses) && enrollments == old(enrollments) && loading == old(loading) && form == old(form)
    {
      body := StatusPatch(status);
      reload := outcome.Ok?;
      if outcome.Ok? {
        message := "Enrollment " + status;
      } else {
        error := "Error updating enrollment";
      }
    }

    /** The Approve button. */
    method Approve(enrollmentId: int, outcome: Response<()>) returns (body: StatusPatch, reload: bool)
      modifies this
      ensures body == StatusPatch("approved")
      ensures reload <==> outcome.Ok?
      ensures outcome.Ok? ==> message == "Enrollment approved" && error == old(error)
      ensures !outcome.Ok? ==> error == "Error updating enrollment" && message == old(message)
      ensures courses == old(courses) && enrollments == old(enrollments) && loading == old(loading) && form == old(form)
    {
      body, reload := UpdateEnrollment(enrollmentId, "approved", outcome);
    }

    /** The Reject button. */
    method Reject(enrollmentId: int, outcome: Response<()>) returns (body: StatusPatch, reload: bool)
      modifies this
      ensures body == StatusPatch("rejected")
      ensures reload <==> outcome.Ok?
      ensures outcome.Ok? ==> message == "Enrollment rejected" && error == old(error)
      ensures !outcome.Ok? ==> error == "Error updating enrollment" && message == old(message)
      ensures courses == old(courses) && enrollments == old(enrollments) && loading == old(loading) && form == old(form)
    {
      body, reload := UpdateEnrollment(enrollmentId, "rejected", outcome);
    }
  }
}
