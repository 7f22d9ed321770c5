/**
 * The course page: the stored-user read that fails closed, instructor ownership,
 * the content form (validation, authorisation, reset, edit), deletion from the
 * content list, list loading and the dispatch of a content item to a preview.
 */
module CourseDetails {
  import opened Wrappers
  import opened Js
  import opened Api
  import opened Seqs
  import Storage
  import AssetUrl

  const CloudBase := "https://res.cloudinary.com/dlev4b4pu"

  /** `getFileUrl` */
  function GetFileUrl(path: MaybeText): (r: Option<string>)
    ensures r.None? <==> !(path.Text? && path.s != "")
    ensures r.Some? && AssetUrl.StartsWith(path.s, "http") ==> r.value == path.s
    ensures r.Some? && !AssetUrl.StartsWith(path.s, "http") ==> AssetUrl.StartsWith(r.value, "https://res.cloudinary.com/dlev4b4pu/")
  {
    AssetUrl.Resolve(CloudBase, path)
  }

  /**
   * The user stored under "user", parsed inside a try/catch: a missing entry,
   * JSON `null` and text that does not parse all give no user, never an exception.
   */
  function ReadStoredUser(items: map<string, string>, codec: JsonCodec): (r: Option<User>)
    ensures r.Some? <==> "user" in items && codec.parse(items["user"]).Value?
    ensures r.Some? ==> codec.parse(items["user"]) == Value(r.value)
    ensures "user" in items && codec.parse(items["user"]).Malformed? ==> r.None?
  {
    match Storage.Get(items, "user")
    case None => None
    case Some(text) =>
      match codec.parse(text)
      case Malformed => None
      case JsonNull => None
      case Value(u) => Some(u)
  }

  /**
   * `isOwner`: the number form of the instructor id (of the embedded object, or
   * the raw value) equals the number form of the user's id.
   */
  function IsOwner(course: Option<Course>, user: Option<User>): (b: bool)
    ensures b ==> course.Some? && user.Some?
    ensures course.Some? && user.Some? ==>
      (b <==> NumericallyEqual(course.value.instructor.id, user.value.id))
  {
    course.Some? && NumericallyEqual(course.value.instructor.id, UserId(user))
  }

  /** `user?.role === "admin"` */
  predicate IsAdmin(user: Option<User>) {
    user.Some? && user.value.role == Some("admin")
  }

  /** The management view (form, edit and delete buttons) is shown to an admin who owns the course. */
  predicate ManagementVisible(user: Option<User>, course: Option<Course>): (b: bool)
    ensures b ==> course.Some? && user.Some? && user.value.role == Some("admin")
    ensures b ==> NumericallyEqual(course.value.instructor.id, user.value.id)
    ensures user.None? || course.None? ==> !b
  {
    IsAdmin(user) && IsOwner(course, user)
  }

  // ---- Preview dispatch ----

  const ViewerPrefix := "https://docs.google.com/gview?url="
  const ViewerSuffix := "&embedded=true"

  datatype Preview =
    | NoPreview
    | VideoPlayer(src: string)
    | ImageView(src: string, alt: string)
    | DocumentViewer(viewer: string, link: string)
    | DownloadLink(href: string)

  /** The URL a preview shows or opens directly. */
  function Target(p: Preview): Option<string> {
    match p
    case NoPreview => None
    case VideoPlayer(src) => Some(src)
    case ImageView(src, _) => Some(src)
    case DocumentViewer(_, link) => Some(link)
    case DownloadLink(href) => Some(href)
  }

  /**
   * `renderContentPreview`: nothing without a URL; a player, an image or an
   * embedded document viewer plus a direct link for the three known types; a
   * download link for every other type. `encode` is `encodeURIComponent`.
   */
  function RenderPreview(c: Content, encode: string -> string): (p: Preview)
    ensures p.NoPreview? <==> GetFileUrl(c.contentFile).None?
    ensures !p.NoPreview? ==> Target(p) == GetFileUrl(c.contentFile)
    ensures p.VideoPlayer? <==> !p.NoPreview? && c.contentType == "video"
    ensures p.ImageView? <==> !p.NoPreview? && c.contentType == "image"
    ensures p.DocumentViewer? <==> !p.NoPreview? && c.contentType == "document"
    ensures p.ImageView? ==> p.alt == c.title
    ensures p.DocumentViewer? ==> p.viewer == ViewerPrefix + encode(p.link) + ViewerSuffix
  {
    match GetFileUrl(c.contentFile)
    case None => NoPreview
    case Some(url) =>
      if c.contentType == "video" then VideoPlayer(url)
      else if c.contentType == "image" then ImageView(url, c.title)
      else if c.contentType == "document" then DocumentViewer(ViewerPrefix + encode(url) + ViewerSuffix, url)
      else DownloadLink(url)
  }

  /** With an injective `encode`, the embedded viewer's address determines the document it shows. */
  lemma ViewerDeterminesDocument(encode: string -> string, c1: Content, c2: Content)
    requires forall a, b :: encode(a) == encode(b) ==> a == b
    requires RenderPreview(c1, encode).DocumentViewer? && RenderPreview(c2, encode).DocumentViewer?
    requires RenderPreview(c1, encode).viewer == RenderPreview(c2, encode).viewer
    ensures RenderPreview(c1, encode).link == RenderPreview(c2, encode).link
  {
    var l1, l2 := RenderPreview(c1, encode).link, RenderPreview(c2, encode).link;
    var v := RenderPreview(c1, encode).viewer;
    var e1, e2 := encode(l1), encode(l2);
    assert v == ViewerPrefix + e1 + ViewerSuffix;
    assert v == ViewerPrefix + e2 + ViewerSuffix;
    assert |e1| == |e2|;
    assert e1 == v[|ViewerPrefix|..|ViewerPrefix| + |e1|];
    assert e2 == v[|ViewerPrefix|..|ViewerPrefix| + |e2|];
  }

  /** A document stored at "/files/a.pdf" is shown in the viewer and linked directly at the same asset-host URL. */
  lemma DocumentPreviewScenario(encode: string -> string, c: Content)
    requires c.contentType == "document" && c.contentFile == Text("/files/a.pdf")
    ensures RenderPreview(c, encode) == DocumentViewer(
      ViewerPrefix + encode(CloudBase + "/files/a.pdf") + ViewerSuffix, CloudBase + "/files/a.pdf")
  {
    AssetUrl.ResolveRules(CloudBase, c.contentFile);
    assert "/files/a.pdf"[0] == '/';
  }

  // ---- Submission ----

  const IncompleteFormText := "Provide title, type, and file (for new uploads)"
  const NotAllowedText := "Not allowed"

  /** `!!editingId`: an id is being edited (an id of 0 is falsy). */
  predicate Editing(editingId: Option<int>) {
    editingId.Some? && editingId.value != 0
  }

  datatype Verdict = Incomplete | Forbidden | Proceed(update: bool)

  /**
   * The two checks at the head of `handleSubmit`: form completeness first, then
   * authorisation (a user who is an admin and owns the course).
   */
  function SubmitVerdict(title: string, contentType: string, file: Option<FileRef>, editingId: Option<int>,
                         user: Option<User>, owner: bool): (v: Verdict)
    ensures v.Incomplete? <==> title == "" || contentType == "" || (file.None? && !Editing(editingId))
    ensures v.Proceed? <==> !v.Incomplete? && IsAdmin(user) && owner
    ensures v.Proceed? ==> (v.update <==> Editing(editingId))
  {
    if title == "" || contentType == "" || (file.None? && !Editing(editingId)) then Incomplete
    else if user.None? || user.value.role != Some("admin") || !owner then Forbidden
    else Proceed(Editing(editingId))
  }

  /** For a complete form, the submission is authorised exactly when the management view is shown. */
  lemma SubmitAuthorisedIffManagementView(title: string, contentType: string, file: Option<FileRef>,
                                          editingId: Option<int>, user: Option<User>, course: Option<Course>)
    requires title != "" && contentType != "" && (file.Some? || Editing(editingId))
    ensures SubmitVerdict(title, contentType, file, editingId, user, IsOwner(course, user)).Proceed?
            <==> ManagementVisible(user, course)
  {
  }

  /** The error a sent request ends with, or `None` on success. */
  function SubmitFailure(update: bool, outcome: Response<()>): (e: Option<string>)
    ensures e.None? <==> outcome.Ok?
    ensures e.Some? ==> e.value != ""
    ensures outcome.NotOk? && Present(outcome.body.detail) ==> e == Some(outcome.body.detail.value)
    ensures outcome.Threw? ==> e == Some(if update then "Update failed" else "Upload failed")
    ensures outcome.NotOk? && !Present(outcome.body.detail) ==> e == Some(if update then "Update failed" else "Upload failed")
  {
    var fallback := if update then "Update failed" else "Upload failed";
    match outcome
    case Threw => Some(fallback)
    case NotOk(b) => Some(OrElse(b.detail, fallback))
    case Ok(_) => None
  }

  /** The JSON body of an update (PATCH). */
  datatype ContentPatch = ContentPatch(
    title: string, contentType: string, description: string, order: int, isActive: bool, course: Option<int>)

  /** The multipart fields of an upload (POST). */
  datatype ContentUpload = ContentUpload(
    course: string, title: string, contentType: string, file: FileRef, description: string, order: int, isActive: bool)

  datatype ContentRequest = NoRequest | PatchContent(contentId: int, patch: ContentPatch) | UploadContent(upload: ContentUpload)

  /** The six fields of the content form. */
  datatype ContentForm = ContentForm(
    title: string, contentType: string, file: Option<FileRef>, description: string, order: int, editingId: Option<int>)

  const EmptyForm := ContentForm("", "", None, "", 0, None)

  // ---- Deletion ----

  function HasContentId(id: int): Content -> bool {
    (c: Content) => c.id == id
  }

  /**
   * `prev.filter(c => c.id !== contentId)`: exactly the items with that id go,
   * every other item stays, and nothing is duplicated.
   */
  function RemoveById(contents: seq<Content>, id: int): (r: seq<Content>)
    ensures forall c :: c in r <==> c in contents && c.id != id
    ensures multiset(r) + multiset(Filter(contents, HasContentId(id))) == multiset(contents)
  {
    FilterPartition(contents, HasContentId(id));
    Filter(contents, Not(HasContentId(id)))
  }

  /** Removal keeps the remaining items in their original order and is idempotent. */
  lemma RemoveByIdOrder(a: seq<Content>, b: seq<Content>, id: int)
    ensures RemoveById(a + b, id) == RemoveById(a, id) + RemoveById(b, id)
    ensures RemoveById(RemoveById(a, id), id) == RemoveById(a, id)
  {
    FilterConcat(a, b, Not(HasContentId(id)));
    FilterIdempotent(a, Not(HasContentId(id)));
  }

  /** Removing an id that no item has leaves the list as it is. */
  lemma RemoveAbsentId(contents: seq<Content>, id: int)
    requires forall i :: 0 <= i < |contents| ==> contents[i].id != id
    ensures RemoveById(contents, id) == contents
  {
    FilterKeepsAll(contents, Not(HasContentId(id)));
  }

  // ---- The page ----

  datatype PageView = LoadingView | NotFoundView | ReadOnlyView | ManagementView

  class CourseDetailsPage {
    const routeId: string
    const user: Option<User>
    var course: Option<Course>
    var contents: seq<Content>
    var loading: bool
    var error: string
    var message: string
    var title: string
    var contentType: string
    var file: Option<FileRef>
    var description: string
    var order: int
    var editingId: Option<int>

    /** Mounting the page for route id `routeId` with the given storage contents. */
    constructor (items: map<string, string>, codec: JsonCodec, routeId: string)
      ensures this.routeId == routeId && user == ReadStoredUser(items, codec)
      ensures course.None? && contents == [] && loading && error == "" && message == ""
      ensures Form() == EmptyForm
    {
      this.routeId := routeId;
      user := ReadStoredUser(items, codec);
      course := None;
      contents := [];
      loading := true;
      error := "";
      message := "";
      title, contentType, file, description, order, editingId := "", "", None, "", 0, None;
    }

    function Form(): ContentForm
      reads this
    {
      ContentForm(title, contentType, file, description, order, editingId)
    }

    /** What `handleSubmit` decides for the current form and user. */
    function Verdict(): Verdict
      reads this
    {
      SubmitVerdict(title, contentType, file, editingId, user, IsOwner(course, user))
    }

    /** The request `handleSubmit` sends for the current state; one is sent only for an admin who owns the course. */
    function PendingRequest(): (r: ContentRequest)
      reads this
      ensures r.NoRequest? <==> !Verdict().Proceed?
      ensures !r.NoRequest? ==> ManagementVisible(user, course)
      ensures r.PatchContent? <==> Verdict() == Proceed(true)
      ensures r.PatchContent? ==> Some(r.contentId) == editingId && r.patch.title == title && r.patch.isActive
      ensures r.UploadContent? ==> Some(r.upload.file) == file && r.upload.course == routeId && r.upload.isActive
    {
      match Verdict()
      case Proceed(update) =>
        if update then
          PatchContent(editingId.value, ContentPatch(title, contentType, description, order, true, NumberOf(Str(routeId))))
        else
          UploadContent(ContentUpload(routeId, title, contentType, file.value, description, order, true))
      case _ => NoRequest
    }

    /** `resetForm`: the six form fields return to their initial values. */
    method ResetForm()
      modifies this
      ensures Form() == EmptyForm
      ensures course == old(course) && contents == old(contents) && loading == old(loading)
      ensures error == old(error) && message == old(message)
    {
      title := "";
      contentType := "";
      file := None;
      description := "";
      order := 0;
      editingId := None;
    }

    /** The Edit button: the form takes the item's fields and its id; the chosen file stays. */
    method BeginEdit(c: Content)
      modifies this
      ensures Form() == ContentForm(c.title, c.contentType, old(file), c.description.GetOr(""), c.order, Some(c.id))
      ensures course == old(course) && contents == old(contents) && loading == old(loading)
      ensures error == old(error) && message == old(message)
    {
      editingId := Some(c.id);
      title := c.title;
      contentType := c.contentType;
      description := c.description.GetOr("");
      order := c.order;
    }

    /**
     * `handleSubmit`: clears error and message, rejects an incomplete form, then
     * an unauthorised user, and otherwise sends the update or upload; on success
     * the form is reset and the list is reloaded (`reload`).
     */
    method Submit(outcome: Response<()>) returns (req: ContentRequest, reload: bool)
      modifies this
      ensures req == old(PendingRequest())
      ensures old(Verdict()).Incomplete? ==> error == IncompleteFormText
      ensures old(Verdict()).Forbidden? ==> error == NotAllowedText
      ensures req.NoRequest? ==> message == "" && !reload && Form() == old(Form())
      ensures !req.NoRequest? ==>
        match SubmitFailure(req.PatchContent?, outcome)
        case Some(e) => error == e && message == "" && !reload && Form() == old(Form())
        case None =>
          error == "" && Form() == EmptyForm && reload
          && message == (if req.PatchContent? then "Content updated" else "Content uploaded")
      ensures course == old(course) && contents == old(contents) && loading == old(loading)
    {
      req := PendingRequest();
      reload := false;
      error := "";
      message := "";
      var verdict := Verdict();
      if verdict.Incomplete? {
        error := IncompleteFormText;
        return;
      }
      if verdict.Forbidden? {
        error := NotAllowedText;
        return;
      }
      var update := verdict.update;
      match SubmitFailure(update, outcome)
      case Some(e) =>
        error := e;
      case None =>
        message := if update then "Content updated" else "Content uploaded";
        ResetForm();
        reload := true;
    }

    /** `handleDelete`: on success the item leaves the list; on failure the list stays and an error is shown. */
    method Delete(contentId: int, outcome: Response<()>)
      modifies this
      ensures outcome.Ok? ==> contents == RemoveById(old(contents), contentId) && message == "Content deleted" && error == old(error)
      ensures !outcome.Ok? ==> contents == old(contents) && error == "Delete failed" && message == old(message)
      ensures course == old(course) && loading == old(loading) && Form() == old(Form())
    {
      if !outcome.Ok? {
        error := "Delete failed";
        return;
      }
      message := "Content deleted";
      contents := RemoveById(contents, contentId);
    }

    /** `fetchCourse`: an ok body of JSON `null` clears the course, and the page then shows "Course not found". */
    method LoadCourse(outcome: Response<Option<Course>>)
      modifies this
      ensures outcome.Ok? ==> course == outcome.data && error == old(error)
      ensures !outcome.Ok? ==> course == old(course) && error == "Failed to load course"
      ensures contents == old(contents) && loading == old(loading) && message == old(message) && Form() == old(Form())
    {
      if outcome.Ok? {
        course := outcome.data;
      } else {
        error := "Failed to load course";
      }
    }

    /** `fetchContents`: the delivered list, or an empty list and an error; loading ends either way. */
    method LoadContents(outcome: Response<ListPayload<Content>>)
      modifies this
      ensures !loading
      ensures outcome.Ok? && ResultsOf(outcome.data).Some? ==>
        contents == ResultsOf(outcome.data).value && error == old(error)
      ensures !(outcome.Ok? && ResultsOf(outcome.data).Some?) ==>
        contents == [] && error == "Failed to load contents"
      ensures course == old(course) && message == old(message) && Form() == old(Form())
    {
      var list := if outcome.Ok? then ResultsOf(outcome.data) else None;
      if list.Some? {
        contents := list.value;
      } else {
        error := "Failed to load contents";
        contents := [];
      }
      loading := false;
    }

    /** Which body the page renders: loading first, then "not found", then the management or read-only view. */
    function View(): (v: PageView)
      reads this
      ensures v.LoadingView? <==> loading
      ensures v.ManagementView? <==> !loading && course.Some? && ManagementVisible(user, course)
      ensures v.ReadOnlyView? <==> !loading && course.Some? && !ManagementVisible(user, course)
    {
      if loading then LoadingView
      else if course.None? then NotFoundView
      else if ManagementVisible(user, course) then ManagementView
      else ReadOnlyView
    }
  }

  /** An admin viewing a course taught by someone else gets the read-only view, and a submission is refused. */
  lemma AdminNonOwnerReadOnly(user: User, course: Course, form: ContentForm)
    requires IsAdmin(Some(user)) && !IsOwner(Some(course), Some(user))
    ensures !ManagementVisible(Some(user), Some(course))
    ensures !SubmitVerdict(form.title, form.contentType, form.file, form.editingId, Some(user), IsOwner(Some(course), Some(user))).Proceed?
  {
  }

  /** An update sent from the route "/course/<n>" names course `n`: `Number(id)` reads the route text back. */
  lemma PatchCarriesRouteCourse(page: CourseDetailsPage, n: nat)
    requires page.routeId == IdText(Num(n))
    requires page.PendingRequest().PatchContent?
    ensures page.PendingRequest().patch.course == Some(n)
  {
    NumberOfIdText(n);
  }

  /** Without a stored user nobody owns the course: `Number(undefined)` is NaN. */
  lemma NoUserOwnsNothing(course: Option<Course>)
    ensures !IsOwner(course, None)
  {
  }
}
