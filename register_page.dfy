/** The registration page: request field mapping and what `handleRegister` does with the response. */
module RegisterPage {
  import opened Wrappers
  import opened Js
  import opened Api
  import Storage

  datatype RegisterForm = RegisterForm(
    email: string, password: string, firstname: string, lastname: string,
    phone: string, dob: string, address: string, secretKey: string)

  datatype RegisterRequest = RegisterRequest(
    email: string, password: string, firstName: string, lastName: string,
    phone: string, dateOfBirth: string, address: string, adminSecret: Option<string>)

  /** The request body: the form's fields under the API's names, and the admin secret only for the "admin" role. */
  function BuildRequest(role: string, form: RegisterForm): (r: RegisterRequest)
    ensures r.email == form.email && r.password == form.password && r.phone == form.phone && r.address == form.address
    ensures r.firstName == form.firstname && r.lastName == form.lastname && r.dateOfBirth == form.dob
    ensures r.adminSecret.Some? <==> role == "admin"
    ensures r.adminSecret.Some? ==> r.adminSecret.value == form.secretKey
  {
    RegisterRequest(form.email, form.password, form.firstname, form.lastname, form.phone, form.dob, form.address,
                    if role == "admin" then Some(form.secretKey) else None)
  }

  /** `data.access && data.refresh` */
  predicate TokensPresent(reply: AuthReply) {
    Present(reply.access) && Present(reply.refresh)
  }

  /** The storage after an ok response with both tokens: the tokens, and the user if the response has one. */
  function RegisterWrites(items: map<string, string>, reply: AuthReply, codec: JsonCodec): (r: map<string, string>)
    requires TokensPresent(reply)
    ensures r.Keys == items.Keys + {"accessToken", "refreshToken"} + (if reply.user.Some? then {"user"} else {})
    ensures r["accessToken"] == reply.access.value && r["refreshToken"] == reply.refresh.value
    ensures reply.user.Some? ==> r["user"] == codec.stringify(reply.user.value)
    ensures forall k :: k in items && k !in {"accessToken", "refreshToken", "user"} ==> r[k] == items[k]
    ensures reply.user.None? && "user" in items ==> r["user"] == items["user"]
  {
    var withTokens := items["accessToken" := reply.access.value]["refreshToken" := reply.refresh.value];
    if reply.user.Some? then withTokens["user" := codec.stringify(reply.user.value)] else withTokens
  }

  /** Where a registration goes: by the returned user's role; anything else, including no user, goes to "/home". */
  function Redirect(user: Option<User>): (nav: string)
    ensures nav == "/student/dashboard" <==> user.Some? && user.value.role == Some("student")
    ensures nav == "/admin/dashboard" <==> user.Some? && user.value.role == Some("admin")
    ensures nav != "/student/dashboard" && nav != "/admin/dashboard" ==> nav == "/home"
  {
    if user.Some? && user.value.role == Some("student") then "/student/dashboard"
    else if user.Some? && user.value.role == Some("admin") then "/admin/dashboard"
    else "/home"
  }

  const MissingTokensText := "Registration succeeded, but tokens are missing."

  /** The error after the handler; empty exactly when the registration navigates. */
  function RegisterError(outcome: Response<AuthReply>): (e: string)
    ensures e == "" <==> outcome.Ok? && TokensPresent(outcome.data)
    ensures outcome.Ok? && !TokensPresent(outcome.data) ==> e == MissingTokensText
    ensures outcome.NotOk? ==> e == OrElse(outcome.body.message, "Registration failed. Please try again.")
    ensures outcome.Threw? ==> e == "An error occurred. Please try again."
  {
    match outcome
    case Threw => "An error occurred. Please try again."
    case NotOk(b) => OrElse(b.message, "Registration failed. Please try again.")
    case Ok(d) => if TokensPresent(d) then "" else MissingTokensText
  }

  class RegisterPage {
    var role: string
    var form: RegisterForm
    var error: string
    var loading: bool

    constructor ()
      ensures role == "student" && form == RegisterForm("", "", "", "", "", "", "", "") && error == "" && !loading
    {
      role := "student";
      form := RegisterForm("", "", "", "", "", "", "", "");
      error := "";
      loading := false;
    }

    /**
     * `handleRegister`: sends the request; an ok response without both tokens
     * stores nothing and stays on the page; with both tokens the session is
     * stored and the page navigates by the returned role.
     */
    method HandleRegister(store: Storage.BrowserStorage, codec: JsonCodec, outcome: Response<AuthReply>)
      returns (req: RegisterRequest, nav: Option<string>)
      modifies this, store
      ensures req == BuildRequest(role, form)
      ensures outcome.Ok? && TokensPresent(outcome.data) ==>
        store.items == RegisterWrites(old(store.items), outcome.data, codec) && nav == Some(Redirect(outcome.data.user))
      ensures !(outcome.Ok? && TokensPresent(outcome.data)) ==> store.items == old(store.items) && nav.None?
      ensures error == RegisterError(outcome)
      ensures !loading
      ensures role == old(role) && form == old(form)
    {
      error := "";
      loading := true;
      req := BuildRequest(role, form);
      nav := None;
      match outcome {
        case Threw =>
          error := "An error occurred. Please try again.";
        case NotOk(b) =>
          error := OrElse(b.message, "Registration failed. Please try again.");
        case Ok(data) =>
          if Present(data.access) && Present(data.refresh) {
            store.SetItem("accessToken", data.access.value);
            store.SetItem("refreshToken", data.refresh.value);
          } else {
            error := MissingTokensText;
            loading := false;
            return;
          }
          if data.user.Some? {
            store.SetItem("user", codec.stringify(data.user.value));
          }
          nav := Some(Redirect(data.user));
      }
      loading := false;
    }
  }
}
