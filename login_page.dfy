/** The login page: request shaping and what `handleLogin` does with the response. */
module LoginPage {
  import opened Wrappers
  import opened Js
  import opened Api
  import Storage

  datatype LoginRequest = LoginRequest(email: string, password: string, secretKey: Option<string>)

  /** The request body: email and password, and the secret key only for the "admin" role. */
  function BuildRequest(role: string, email: string, password: string, secretKey: string): (r: LoginRequest)
    ensures r.email == email && r.password == password
    ensures r.secretKey.Some? <==> role == "admin"
    ensures r.secretKey.Some? ==> r.secretKey.value == secretKey
  {
    LoginRequest(email, password, if role == "admin" then Some(secretKey) else None)
  }

  /** The keys every successful login writes. */
  const LoginKeys: set<string> := {"accessToken", "refreshToken", "user", "userEmail"}

  /** `role === "student" && data.user.id`: when "studentId" is written. */
  predicate WritesStudentId(role: string, reply: AuthReply) {
    role == "student" && reply.user.Some? && Truthy(reply.user.value.id)
  }

  /**
   * The storage after an ok response: tokens, the stringified user and the email,
   * then "studentId" for a student login whose returned user has a truthy id.
   * Every other key keeps its value.
   */
  function LoginWrites(items: map<string, string>, role: string, email: string, reply: AuthReply, codec: JsonCodec)
    : (r: map<string, string>)
    ensures r.Keys == items.Keys + LoginKeys + (if WritesStudentId(role, reply) then {"studentId"} else {})
    ensures r["accessToken"] == StoredText(reply.access) && r["refreshToken"] == StoredText(reply.refresh)
    ensures r["user"] == UserText(reply.user, codec) && r["userEmail"] == email
    ensures WritesStudentId(role, reply) ==> r["studentId"] == IdText(reply.user.value.id)
    ensures forall k :: k in items && k !in LoginKeys && k != "studentId" ==> r[k] == items[k]
    ensures !WritesStudentId(role, reply) && "studentId" in items ==> r["studentId"] == items["studentId"]
  {
    var written := items["accessToken" := StoredText(reply.access)]
                        ["refreshToken" := StoredText(reply.refresh)]
                        ["user" := UserText(reply.user, codec)]
                        ["userEmail" := email];
    if WritesStudentId(role, reply) then written["studentId" := IdText(reply.user.value.id)] else written
  }

  /** Where a login goes: by the RETURNED user's role, "/admin/dashboard" for "admin", "/student/dashboard" otherwise. */
  function Redirect(user: User): (nav: string)
    ensures nav == "/admin/dashboard" <==> user.role == Some("admin")
    ensures nav != "/admin/dashboard" ==> nav == "/student/dashboard"
  {
    if user.role == Some("admin") then "/admin/dashboard" else "/student/dashboard"
  }

  /** The navigation after the handler: only an ok response that carries a user navigates. */
  function LoginNav(outcome: Response<AuthReply>): (nav: Option<string>)
    ensures nav.Some? <==> outcome.Ok? && outcome.data.user.Some?
    ensures nav.Some? ==> nav.value == Redirect(outcome.data.user.value)
  {
    if outcome.Ok? && outcome.data.user.Some? then Some(Redirect(outcome.data.user.value)) else None
  }

  /**
   * The error after the handler: `detail`, else `message`, else "Login failed" for
   * a non-ok response; "Something went wrong" for an exception, including reading
   * the id or role of a missing user after an ok response.
   */
  function LoginError(outcome: Response<AuthReply>): (e: string)
    ensures e == "" <==> outcome.Ok? && outcome.data.user.Some?
    ensures outcome.NotOk? && Present(outcome.body.detail) ==> e == outcome.body.detail.value
    ensures outcome.NotOk? && !Present(outcome.body.detail) && Present(outcome.body.message) ==> e == outcome.body.message.value
    ensures outcome.NotOk? && !Present(outcome.body.detail) && !Present(outcome.body.message) ==> e == "Login failed"
    ensures outcome.Threw? ==> e == "Something went wrong"
    ensures outcome.Ok? && outcome.data.user.None? ==> e == "Something went wrong"
  {
    match outcome
    case Threw => "Something went wrong"
    case NotOk(b) => OrElse(b.detail, OrElse(b.message, "Login failed"))
    case Ok(d) => if d.user.None? then "Something went wrong" else ""
  }

  /** A login ends either by navigating or by showing an error, never both and never neither. */
  lemma NavigatesOrReports(outcome: Response<AuthReply>)
    ensures LoginNav(outcome).Some? <==> LoginError(outcome) == ""
  {
  }

  class LoginPage {
    var role: string
    var email: string
    var password: string
    var secretKey: string
    var error: string
    var loading: bool

    constructor ()
      ensures role == "student" && email == "" && password == "" && secretKey == "" && error == "" && !loading
    {
      role := "student";
      email, password, secretKey := "", "", "";
      error := "";
      loading := false;
    }

    /**
     * `handleLogin`: sends the request; an ok response writes the session keys
     * (before anything can fail) and navigates by the returned role.
     */
    method HandleLogin(store: Storage.BrowserStorage, codec: JsonCodec, outcome: Response<AuthReply>)
      returns (req: LoginRequest, nav: Option<string>)
      modifies this, store
      ensures req == BuildRequest(role, email, password, secretKey)
      ensures store.items == if outcome.Ok? then LoginWrites(old(store.items), role, email, outcome.data, codec) else old(store.items)
      ensures nav == LoginNav(outcome)
      ensures error == LoginError(outcome)
      ensures !loading
      ensures role == old(role) && email == old(email) && password == old(password) && secretKey == old(secretKey)
    {
      error := "";
      loading := true;
      req := BuildRequest(role, email, password, secretKey);
      nav := None;
      match outcome {
        case Threw =>
          error := "Something went wrong";
        case NotOk(b) =>
          error := OrElse(b.detail, OrElse(b.message, "Login failed"));
        case Ok(data) =>
          store.SetItem("accessToken", StoredText(data.access));
          store.SetItem("refreshToken", StoredText(data.refresh));
          store.SetItem("user", UserText(data.user, codec));
          store.SetItem("userEmail", email);
          if data.user.None? {
            // `data.user.id` or `data.user.role` throws
            error := "Something went wrong";
          } else {
            if role == "student" && Truthy(data.user.value.id) {
              store.SetItem("studentId", IdText(data.user.value.id));
            }
            nav := Some(Redirect(data.user.value));
          }
      }
      loading := false;
    }
  }
}
