/**
 * How the pages meet through the browser storage: what one page writes, another
 * reads. Each lemma follows a session across two pages.
 */
module Session {
  import opened Wrappers
  import opened Js
  import opened Api
  import Navbar
  import LoginPage
  import RegisterPage
  import CourseDetails
  import StudentDashboard
  import AdminDashboard

  /** The three pages each keep their own copy of the file-URL resolver; all three copies agree. */
  lemma CopiesAgree(path: MaybeText)
    ensures CourseDetails.GetFileUrl(path) == StudentDashboard.GetThumbnailUrl(path)
    ensures StudentDashboard.GetThumbnailUrl(path) == AdminDashboard.GetThumbnailUrl(path)
  {
  }

  /** After an ok login the guarded reader sees exactly the returned user; a response without one reads back as no user. */
  lemma LoginStoresReadableUser(items: map<string, string>, role: string, email: string, reply: AuthReply, codec: JsonCodec)
    requires Faithful(codec)
    ensures CourseDetails.ReadStoredUser(LoginPage.LoginWrites(items, role, email, reply, codec), codec) == reply.user
  {
    var after := LoginPage.LoginWrites(items, role, email, reply, codec);
    match reply.user
    case Some(u) =>
      assert after["user"] == codec.stringify(u);
      assert codec.parse(codec.stringify(u)) == Value(u);
    case None =>
      assert after["user"] == "undefined";
  }

  /**
   * An admin account that logs in with a non-empty access token lands on the
   * admin dashboard and the bar shows the admin link and not the student one,
   * whichever role was selected on the form.
   */
  lemma AdminLoginShowsAdminLinks(items: map<string, string>, role: string, email: string, reply: AuthReply, codec: JsonCodec)
    requires Faithful(codec)
    requires reply.user.Some? && reply.user.value.role == Some("admin")
    requires reply.access != Some("")
    ensures LoginPage.LoginNav(Ok(reply)) == Some("/admin/dashboard")
    ensures var after := LoginPage.LoginWrites(items, role, email, reply, codec);
      Navbar.Links(after, CourseDetails.ReadStoredUser(after, codec)) == Navbar.NavLinks(true, true, false, Navbar.LogoutButton)
  {
    LoginStoresReadableUser(items, role, email, reply, codec);
  }

  /** A student registration with both tokens lands on the student dashboard, and the bar shows the student link. */
  lemma StudentRegistrationShowsStudentLinks(items: map<string, string>, reply: AuthReply, codec: JsonCodec)
    requires Faithful(codec)
    requires RegisterPage.TokensPresent(reply)
    requires reply.user.Some? && reply.user.value.role == Some("student")
    ensures RegisterPage.Redirect(reply.user) == "/student/dashboard"
    ensures var after := RegisterPage.RegisterWrites(items, reply, codec);
      CourseDetails.ReadStoredUser(after, codec) == reply.user &&
      Navbar.Links(after, reply.user) == Navbar.NavLinks(true, false, true, Navbar.LogoutButton)
  {
    var after := RegisterPage.RegisterWrites(items, reply, codec);
    assert codec.parse(after["user"]) == Value(reply.user.value);
  }

  /**
   * The student dashboard's logout also logs the bar out, but it keeps the
   * refresh token that the bar's own logout removes.
   */
  lemma StudentLogoutKeepsRefreshToken(items: map<string, string>, user: Option<User>)
    requires "refreshToken" in items
    ensures Navbar.Links(items - StudentDashboard.StudentLogoutKeys, user) == Navbar.AnonymousLinks
    ensures "refreshToken" in items - StudentDashboard.StudentLogoutKeys
    ensures "refreshToken" !in items - Navbar.SessionKeys
  {
  }

  /** After a login, the bar's logout leaves the stored email (and any student id) behind. */
  lemma LogoutKeepsProfileKeys(items: map<string, string>, role: string, email: string, reply: AuthReply, codec: JsonCodec)
    ensures var after := LoginPage.LoginWrites(items, role, email, reply, codec) - Navbar.SessionKeys;
      "userEmail" in after && after["userEmail"] == email &&
      (LoginPage.WritesStudentId(role, reply) ==> "studentId" in after)
  {
  }
}
