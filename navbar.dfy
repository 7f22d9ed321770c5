/** The navigation bar: logged-in state, per-link visibility and its logout. */
module Navbar {
  import opened Wrappers
  import opened Js
  import opened Api
  import Storage

  /** `!!localStorage.getItem("accessToken")`: logged in by the token alone; an empty token does not count. */
  predicate IsLoggedIn(items: map<string, string>): (b: bool)
    ensures b <==> Present(Storage.Get(items, "accessToken"))
  {
    "accessToken" in items && items["accessToken"] != ""
  }

  /** `user?.role` */
  function RoleOf(user: Option<User>): (r: Option<string>)
    ensures user.None? ==> r.None?
    ensures user.Some? ==> r == user.value.role
  {
    match user
    case Some(u) => u.role
    case None => None
  }

  datatype AuthButtons = LoginAndRegister | LogoutButton

  /** The conditional entries of the menu (the same conditions hold for the desktop and the mobile menu). */
  datatype NavLinks = NavLinks(courses: bool, adminDashboard: bool, studentDashboard: bool, auth: AuthButtons)

  const AnonymousLinks := NavLinks(false, false, false, LoginAndRegister)

  /** Which links the bar shows for the stored token and the stored user. */
  function Links(items: map<string, string>, user: Option<User>): (v: NavLinks)
    ensures v.courses <==> IsLoggedIn(items) && (RoleOf(user) == Some("student") || RoleOf(user) == Some("admin"))
    ensures v.adminDashboard <==> IsLoggedIn(items) && RoleOf(user) == Some("admin")
    ensures v.studentDashboard <==> IsLoggedIn(items) && RoleOf(user) == Some("student")
    ensures v.auth.LoginAndRegister? <==> !IsLoggedIn(items)
  {
    var loggedIn := IsLoggedIn(items);
    var role := RoleOf(user);
    NavLinks(
      loggedIn && (role == Some("student") || role == Some("admin")),
      loggedIn && role == Some("admin"),
      loggedIn && role == Some("student"),
      if loggedIn then LogoutButton else LoginAndRegister)
  }

  /** At most one dashboard link is shown, and either one comes with the Courses link. */
  lemma AtMostOneDashboard(items: map<string, string>, user: Option<User>)
    ensures !(Links(items, user).adminDashboard && Links(items, user).studentDashboard)
    ensures Links(items, user).adminDashboard || Links(items, user).studentDashboard ==> Links(items, user).courses
  {
  }

  /** Without a token the bar is the anonymous one whatever user is stored. */
  lemma LoggedOutIsAnonymous(items: map<string, string>, user: Option<User>)
    requires !IsLoggedIn(items)
    ensures Links(items, user) == AnonymousLinks
  {
  }

  /** A token without a stored user shows Logout but no role-dependent link. */
  lemma TokenWithoutUser(items: map<string, string>)
    requires IsLoggedIn(items)
    ensures Links(items, None) == NavLinks(false, false, false, LogoutButton)
  {
  }

  /** The keys the bar's logout removes. */
  const SessionKeys: set<string> := {"accessToken", "refreshToken", "user"}

  /** `handleLogout`: removes the three session keys, leaves every other key as it was, and goes to "/". */
  method Logout(store: Storage.BrowserStorage) returns (nav: string)
    modifies store
    ensures store.items == old(store.items) - SessionKeys
    ensures forall k :: k in old(store.items) && k !in SessionKeys ==> k in store.items && store.items[k] == old(store.items)[k]
    ensures nav == "/"
  {
    store.RemoveItem("accessToken");
    store.RemoveItem("refreshToken");
    store.RemoveItem("user");
    nav := "/";
  }

  /** Logging out twice leaves the same storage as once, and the bar is anonymous afterwards. */
  lemma LogoutIdempotent(items: map<string, string>, user: Option<User>)
    ensures (items - SessionKeys) - SessionKeys == items - SessionKeys
    ensures Links(items - SessionKeys, user) == AnonymousLinks
  {
  }
}
