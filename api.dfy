/**
 * The records the pages receive from the remote API and keep in browser storage.
 * Fields are those the pages read; everything else a record carries is irrelevant
 * to the decisions modelled here.
 */
module Api {
  import opened Wrappers
  import opened Js

  /** The stored user: only `id` and `role` are ever read. */
  datatype User = User(id: IdValue, role: Option<string>)

  /** `user?.id`: `undefined` when there is no user. */
  function UserId(user: Option<User>): IdValue {
    match user
    case Some(u) => u.id
    case None => Undefined
  }

  /** A course's `instructor` is either a raw id or an embedded object (`typeof ... === "object"`) carrying one. */
  datatype Instructor = Raw(id: IdValue) | Embedded(id: IdValue)

  datatype Course = Course(
    id: int, title: string, description: string, startDate: string, endDate: string,
    thumbnail: MaybeText, instructor: Instructor)

  datatype Enrollment = Enrollment(id: int, student: int, course: int, status: string)

  datatype Content = Content(
    id: int, title: string, contentType: string, contentFile: MaybeText,
    description: Option<string>, order: int)

  /** A file chosen in a file input. */
  datatype FileRef = FileRef(name: string)

  /** The two fields the pages read from an error response. */
  datatype ErrorBody = ErrorBody(detail: Option<string>, message: Option<string>)

  /**
   * The outcome of one `fetch` and `res.json()`: one of them threw, the response
   * was not ok, or it was ok with the decoded body.
   */
  datatype Response<T> = Threw | NotOk(body: ErrorBody) | Ok(data: T)

  /** A list endpoint's body: a paginated object `{results: [...]}`, a bare array, or `null`. */
  datatype ListPayload<T> = Paged(results: seq<T>) | Bare(items: seq<T>) | NullBody

  /**
   * `data.results || data` (and `Array.isArray(data.results) ? data.results : data`):
   * the list a list endpoint delivered; `None` when reading `.results` of a `null` body throws.
   */
  function ResultsOf<T>(p: ListPayload<T>): (r: Option<seq<T>>)
    ensures r.None? <==> p.NullBody?
    ensures p.Paged? ==> r == Some(p.results)
    ensures p.Bare? ==> r == Some(p.items)
  {
    match p
    case Paged(results) => Some(results)
    case Bare(items) => Some(items)
    case NullBody => None
  }

  /** What a dashboard's list fetch leaves behind: the list, or the error text it shows. */
  datatype Loaded<T> = Loaded(list: seq<T>) | LoadError(text: string)

  /**
   * The dashboards' `fetchCourses` / `fetchEnrollments`: an ok response yields its
   * list; a non-ok response yields `notOkText`; an exception (including reading
   * `.results` of a `null` body) yields `threwText`.
   */
  function LoadList<T>(outcome: Response<ListPayload<T>>, notOkText: string, threwText: string): (r: Loaded<T>)
    ensures r.Loaded? <==> outcome.Ok? && !outcome.data.NullBody?
    ensures r.Loaded? ==> Some(r.list) == ResultsOf(outcome.data)
    ensures outcome.NotOk? ==> r == LoadError(notOkText)
    ensures outcome.Threw? || (outcome.Ok? && outcome.data.NullBody?) ==> r == LoadError(threwText)
  {
    match outcome
    case Threw => LoadError(threwText)
    case NotOk(_) => LoadError(notOkText)
    case Ok(data) =>
      match ResultsOf(data)
      case Some(list) => Loaded(list)
      case None => LoadError(threwText)
  }

  /** The body of a successful login or registration. */
  datatype AuthReply = AuthReply(access: Option<string>, refresh: Option<string>, user: Option<User>)

  /** What `JSON.parse` makes of a stored text: it throws, yields `null`, or yields a value read as a user. */
  datatype Parsed = Malformed | JsonNull | Value(user: User)

  /** `JSON.stringify` and `JSON.parse` restricted to the user record; library code, so a parameter. */
  datatype JsonCodec = JsonCodec(stringify: User -> string, parse: string -> Parsed)

  /** What the pages rely on of the JSON library: a stringified user parses back, and the text "undefined" does not parse. */
  ghost predicate Faithful(codec: JsonCodec) {
    && (forall u :: codec.parse(codec.stringify(u)) == Value(u))
    && codec.parse("undefined") == Malformed
  }

  /** `String(JSON.stringify(user))` as `localStorage.setItem` stores it; `JSON.stringify(undefined)` is `undefined`. */
  function UserText(user: Option<User>, codec: JsonCodec): string {
    match user
    case Some(u) => codec.stringify(u)
    case None => "undefined"
  }
}
