# EduManager client core, modelled in Dafny

EduManager is a single-page React client for an education-management service.
Students enrol in courses and follow their content. Admins create courses,
upload content and approve or reject enrolments. The browser's `localStorage`
holds the session: the access and refresh tokens, the logged-in user as JSON,
the email and, for students, the student id. Every page reads the session from
there, so the pages never pass it to each other.

This project models the decision logic of six files:

- the login and registration pages: which request they send, what they write
  to storage, where they navigate and which error they show;
- the navigation bar: which links it shows for the stored token and role, and
  its logout;
- the student dashboard: the approved-course join, the per-course status badge,
  enrolment and logout;
- the admin dashboard: its own course list, the pending enrolments, the
  course-creation form data, deletion and approve/reject;
- the course-details page: the guarded read of the stored user, the ownership
  test, the content form's validation and authorisation, the update/upload
  request, deletion and the preview chosen for each content type.

Modules:

- `Storage.BrowserStorage` is a class over a `map<string, string>`. Its
  `SetItem` and `RemoveItem` update the map in place, as `localStorage` does.
- Each page is a class whose fields are the component's state variables. Each
  handler is a method that takes the network outcome as a parameter:
  `Api.Response` is `Threw`, `NotOk(body)` or `Ok(data)`.
- Pure logic is written as functions with contracts. Lemmas relate those
  functions to each other and follow a session across pages (`Session`).
- `Js` captures the JavaScript semantics the code depends on: `Number()` on an
  id, truthiness, `a || fallback` on a possibly missing string and `String(v)`
  when storage stores a value.
- `JSON.stringify`/`JSON.parse` of the user record and `encodeURIComponent` are
  library code. They are parameters (`Api.JsonCodec` and `encode`). Lemmas that
  need a parse-after-stringify round trip require it (`Api.Faithful`); the
  lemma that needs an injective encoding requires that separately.

Some behaviours of the code are stated and proved as they are written:

- The course-details page decides ownership by comparing `Number(...)` values.
  The admin dashboard's list of "your courses" uses strict `===` on the raw
  instructor field. The two rules therefore disagree on an embedded instructor
  object and on a string id (`AdminDashboard.OwnershipRulesDiffer`).
- With no stored user, the admin dashboard lists exactly the courses whose
  instructor field is absent, because `undefined === undefined`
  (`AdminDashboard.NoUserListsUnassigned`).
- The student dashboard's logout removes only the user and the access token. It
  keeps the refresh token and navigates to "/login". The bar's logout removes
  all three session keys and navigates to "/" (`Session.StudentLogoutKeepsRefreshToken`).
- A login whose ok response has no `user` has already written both tokens, the
  text "undefined" as the user, and the email. Reading `data.user.id` or
  `data.user.role` then throws, so the page shows "Something went wrong" and stays where it is
  (`LoginPage.LoginPage.HandleLogin`).
- A registration whose returned role is neither "student" nor "admin" goes to
  "/home" (`RegisterPage.Redirect`).
- The login redirect depends only on the returned user's role, not on the role
  selected on the form (`LoginPage.LoginNav`, `Session.AdminLoginShowsAdminLinks`).

## Model

| member | source | states |
|---|---|---|
| AssetUrl.Resolve | src/Pages/CourseDetails.jsx:32-37 | no URL exactly when the path is missing, not text or empty; a URL always ends with the path; an "http" path is returned unchanged; any other path ends up under `base + "/"` |
| AssetUrl.ResolveRules | src/Pages/CourseDetails.jsx:32-37 | the four branches of the resolver, one by one: none, absolute kept, rooted path appended to the base, bare path joined with "/" |
| AssetUrl.ResolveIdempotent | src/Pages/CourseDetails.jsx:34 | with an "http" base, resolving an already-resolved URL gives it back unchanged |
| AssetUrl.RootedAndBareAgree | src/Pages/CourseDetails.jsx:35-36 | "/x" and "x" resolve to the same URL |
| AssetUrl.BareHttpNameKept | src/Pages/CourseDetails.jsx:34 | a relative file name that merely begins with "http" (e.g. "http_x.png") is taken as absolute and not joined to the base |
| CourseDetails.GetFileUrl | src/Pages/CourseDetails.jsx:31-37 | the course page's resolver: no URL exactly for a missing or empty path; an "http" path unchanged; any other path under the cloud base "https://res.cloudinary.com/dlev4b4pu/" |
| StudentDashboard.GetThumbnailUrl | src/Pages/StudentDashboard.jsx:25-31 | the student dashboard's copy of the resolver, with the same three properties |
| AdminDashboard.GetThumbnailUrl | src/Pages/AdminDashboard.jsx:29-35 | the admin dashboard's copy of the resolver, with the same three properties |
| Session.CopiesAgree | src/Pages/StudentDashboard.jsx:25-31 | the course-details, student-dashboard and admin-dashboard copies of the resolver give the same URL for every path |
| Seqs.Filter | src/Pages/StudentDashboard.jsx:99 | `Array.filter`: keeps exactly the elements satisfying the predicate, every kept element satisfies it, and the result is no longer than the input |
| Seqs.Find | src/Pages/StudentDashboard.jsx:164 | `Array.find`: no result exactly when no element satisfies the predicate; a result is an element that satisfies it |
| Seqs.FindFirst | src/Pages/StudentDashboard.jsx:209 | `find` returns the first matching element, not just any matching one |
| Seqs.FilterPartition | src/Pages/CourseDetails.jsx:172 | what a filter keeps plus what it drops is the original list as a multiset, and the lengths add up |
| Js.NumberOf | src/Pages/CourseDetails.jsx:84-86 | `Number()` of an id: a number is itself, `undefined` and non-decimal text are NaN (no value) |
| Js.NumberOfIdText | src/Pages/CourseDetails.jsx:120 | an id turned into route text and read back with `Number(id)` keeps its value |
| CourseDetails.PatchCarriesRouteCourse | src/Pages/CourseDetails.jsx:114-121 | on the route of course `n`, the update request's body names course `n` |
| Js.OrElse | src/Pages/LoginPage.jsx:51 | `a \|\| fallback`: the value when it is present and non-empty, otherwise the fallback; never empty when the fallback is not |
| Api.ResultsOf | src/Pages/CourseDetails.jsx:65-66 | the list in a response body: the `results` field of a paged body, the body itself when it is a bare array, nothing for a null body |
| Api.LoadList | src/Pages/StudentDashboard.jsx:33-45 | a list load succeeds exactly on an ok, non-null body and yields its results; a non-ok response gives the "failed" text; an exception, including reading `results` of null, gives the "error" text |
| Storage.Get | src/Pages/CourseDetails.jsx:25 | `getItem`: a value exactly when the key is stored, and that value |
| Storage.BrowserStorage.SetItem | src/Pages/LoginPage.jsx:36 | `setItem`: the key maps to the value and every other key is unchanged |
| Storage.BrowserStorage.RemoveItem | src/Components/Navabar.jsx:28 | `removeItem`: the key is gone and every other key is unchanged |
| CourseDetails.ReadStoredUser | src/Pages/CourseDetails.jsx:23-29 | a user exactly when "user" is stored and parses to a user record; a missing entry, JSON null or unparsable text give no user and no exception |
| CourseDetails.IsOwner | src/Pages/CourseDetails.jsx:82-86 | owner only with a loaded course and a user; then owner exactly when `Number()` of the instructor id (embedded object or raw value) equals `Number()` of the user id, both being numbers |
| CourseDetails.ManagementVisible | src/Pages/CourseDetails.jsx:264 | the management view needs a loaded course and a user with role "admin" whose id is numerically the instructor's; never without a user or a course |
| CourseDetails.NoUserOwnsNothing | src/Pages/CourseDetails.jsx:82-86 | with no user nobody owns a course: `Number(undefined)` is NaN |
| CourseDetails.RenderPreview | src/Pages/CourseDetails.jsx:179-225 | no preview exactly when the file has no URL; every preview targets that URL; video, image and document players appear exactly for those types, and every other type gets a download link; the image's alt is the title; the document viewer wraps the encoded URL in the viewer prefix and suffix |
| CourseDetails.ViewerDeterminesDocument | src/Pages/CourseDetails.jsx:200-207 | with an injective URL encoding, two documents with the same viewer address link to the same file |
| CourseDetails.DocumentPreviewScenario | src/Pages/CourseDetails.jsx:196-215 | a document at "/files/a.pdf" gets the viewer for the cloud URL and a link to that same URL |
| CourseDetails.SubmitVerdict | src/Pages/CourseDetails.jsx:103-112 | incomplete exactly when the title or type is empty, or when a new upload has no file; allowed exactly when complete, admin and owner; an allowed submission is an update exactly when an edit is in progress |
| CourseDetails.SubmitAuthorisedIffManagementView | src/Pages/CourseDetails.jsx:264 | a complete form is allowed exactly when the page shows the management view (admin and owner) |
| CourseDetails.AdminNonOwnerReadOnly | src/Pages/CourseDetails.jsx:107-109 | an admin who does not own the course sees the read-only view and cannot submit content |
| CourseDetails.SubmitFailure | src/Pages/CourseDetails.jsx:133-160 | an error exactly when the request did not succeed; it is never empty; a non-ok response shows the server's `detail` when it is present and otherwise "Update failed" or "Upload failed"; an exception shows "Update failed" or "Upload failed" |
| CourseDetails.RemoveById | src/Pages/CourseDetails.jsx:172 | after a delete the list holds exactly the contents with a different id; together with the removed ones it is the old list as a multiset |
| CourseDetails.RemoveByIdOrder | src/Pages/CourseDetails.jsx:172 | removal works element by element, so it distributes over concatenation, keeps the order, and removing twice is removing once |
| CourseDetails.RemoveAbsentId | src/Pages/CourseDetails.jsx:172 | deleting an id that no content has leaves the list unchanged |
| CourseDetails.CourseDetailsPage.constructor | src/Pages/CourseDetails.jsx:7-29 | initial state: no course, no contents, loading, no error or message, empty form; the user is the guarded read of storage |
| CourseDetails.CourseDetailsPage.PendingRequest | src/Pages/CourseDetails.jsx:111-150 | a request only when the verdict allows it, and then the management view is visible; a PATCH of the edited id with the form's title, active, exactly when editing; otherwise a POST of the chosen file for the route's course, active |
| CourseDetails.CourseDetailsPage.ResetForm | src/Pages/CourseDetails.jsx:88-95 | the form is emptied; course, contents, loading, error and message are unchanged |
| CourseDetails.CourseDetailsPage.BeginEdit | src/Pages/CourseDetails.jsx:368-374 | the form takes the content's title, type, description (empty when missing) and order, and its id as the edited id; the chosen file is kept |
| CourseDetails.CourseDetailsPage.Submit | src/Pages/CourseDetails.jsx:98-161 | sends exactly the pending request; an incomplete form and a forbidden user get their messages; a failure sets `SubmitFailure`'s text and keeps the form; a success shows "Content updated" or "Content uploaded", clears the form and reloads |
| CourseDetails.CourseDetailsPage.Delete | src/Pages/CourseDetails.jsx:164-176 | on success the content with that id is removed and "Content deleted" is shown; on failure the list is kept and "Delete failed" is shown |
| CourseDetails.CourseDetailsPage.LoadCourse | src/Pages/CourseDetails.jsx:40-52 | an ok response sets the course to its body, which clears it for a JSON `null` body (then "Course not found"); anything else keeps the course and shows "Failed to load course" |
| CourseDetails.CourseDetailsPage.LoadContents | src/Pages/CourseDetails.jsx:54-73 | an ok response with a list sets the contents; anything else empties them and shows "Failed to load contents"; loading ends in every case |
| CourseDetails.CourseDetailsPage.View | src/Pages/CourseDetails.jsx:240-264 | the loading view exactly while loading; after that, the management view exactly for an admin who owns the loaded course, the read-only view for anyone else, and not-found without a course |
| StudentDashboard.Join | src/Pages/StudentDashboard.jsx:163-165 | each card's course is a listed course whose id is the course of some enrolment; there are no more cards than enrolments; every enrolment whose course is listed gets that course's card (only unlisted ones are skipped) |
| StudentDashboard.JoinComplete | src/Pages/StudentDashboard.jsx:163-165 | when every enrolment's course is listed, there is one card per enrolment, in order, each the first course with that id |
| StudentDashboard.JoinConcat | src/Pages/StudentDashboard.jsx:163-165 | the join distributes over concatenation of the enrolment list |
| StudentDashboard.MyCourses | src/Pages/StudentDashboard.jsx:99 | "My Courses" shows only listed courses that have an approved enrolment, at most one per approved enrolment, and every approved enrolment whose course is listed shows that course |
| StudentDashboard.EnrollmentFor | src/Pages/StudentDashboard.jsx:209 | no enrolment exactly when none is for the course; otherwise an enrolment from the list for that course |
| StudentDashboard.StatusOf | src/Pages/StudentDashboard.jsx:209-210 | a course's status is never empty; there is no status exactly when the course has no enrolment or its first enrolment's status is empty |
| StudentDashboard.StatusOfFirst | src/Pages/StudentDashboard.jsx:209-210 | the status comes from the first enrolment for the course |
| StudentDashboard.Capitalize | src/Pages/StudentDashboard.jsx:267 | same length; the first character is upper-cased and the rest is kept |
| StudentDashboard.ColorOf | src/Pages/StudentDashboard.jsx:254-260 | green exactly for "approved", red exactly for "rejected", yellow otherwise |
| StudentDashboard.ActionFor | src/Pages/StudentDashboard.jsx:243-269 | the Enroll button exactly when there is no status; otherwise a badge in the status's colour with the capitalised status |
| StudentDashboard.AvailableCards | src/Pages/StudentDashboard.jsx:208-210 | one card per course, in order; the Enroll button exactly when the course has no enrolment with a status; each card's action is `ActionFor` of that course's status (colour and caption included) |
| StudentDashboard.RejectedBlocksEnroll | src/Pages/StudentDashboard.jsx:209-260 | when the first enrolment for a course is rejected, the course shows a red "Rejected" badge and no Enroll button, so the student cannot re-enrol |
| StudentDashboard.StudentDashboardPage.constructor | src/Pages/StudentDashboard.jsx:16-21 | initial state: no courses or enrolments, loading, no error or message |
| StudentDashboard.StudentDashboardPage.LoadCourses | src/Pages/StudentDashboard.jsx:33-45 | the courses become the loaded list, or the load's error text is shown and the old list is kept |
| StudentDashboard.StudentDashboardPage.LoadEnrollments | src/Pages/StudentDashboard.jsx:47-61 | with no user, `user.id` throws and "Error fetching enrollments" is shown; otherwise as a list load; loading ends in every case |
| StudentDashboard.StudentDashboardPage.Enroll | src/Pages/StudentDashboard.jsx:63-83 | the body is the user's id, the course and "pending"; reload exactly when a user exists and the response is ok, with the sent message; otherwise "Error enrolling in course" |
| StudentDashboard.StudentDashboardPage.View | src/Pages/StudentDashboard.jsx:96-99 | the loading screen exactly while loading, then the error screen exactly when there is an error, then the dashboard of approved courses and course cards |
| StudentDashboard.Logout | src/Pages/StudentDashboard.jsx:85-89 | removes "user" and "accessToken" and nothing else, then goes to "/login" |
| Session.StudentLogoutKeepsRefreshToken | src/Pages/StudentDashboard.jsx:85-89 | after the student logout the bar is logged out but the refresh token is still stored; the bar's logout removes it |
| AdminDashboard.TaughtBy | src/Pages/AdminDashboard.jsx:220 | the filter keeps a course exactly when its instructor field is a raw value strictly equal to the user's id; an embedded instructor object never matches |
| AdminDashboard.YourCourses | src/Pages/AdminDashboard.jsx:220 | lists exactly the courses whose raw instructor field is strictly equal to the user's id |
| AdminDashboard.YourCoursesAreOwned | src/Pages/AdminDashboard.jsx:220 | for a numeric user id, every listed course is one the course-details page treats as owned |
| AdminDashboard.OwnershipRulesDiffer | src/Pages/AdminDashboard.jsx:220 | an embedded instructor object and a string id count as owned on the course page but are missing from the dashboard list |
| AdminDashboard.NoUserListsUnassigned | src/Pages/AdminDashboard.jsx:220 | with no stored user, a course without an instructor is listed |
| AdminDashboard.PendingEnrollments | src/Pages/AdminDashboard.jsx:255 | exactly the enrolments whose status is "pending" |
| AdminDashboard.PendingView | src/Pages/AdminDashboard.jsx:253-279 | the "No pending enrollments" note exactly when no enrolment is pending; otherwise the non-empty list of pending ones |
| AdminDashboard.CourseFormData | src/Pages/AdminDashboard.jsx:78-84 | four fixed fields, plus one for a chosen thumbnail and one for a truthy user id |
| AdminDashboard.CourseFormDataFixedFields | src/Pages/AdminDashboard.jsx:79-82 | title, description, start and end dates are sent as entered |
| AdminDashboard.CourseFormDataOptionalFields | src/Pages/AdminDashboard.jsx:83-84 | the thumbnail is sent exactly when one is chosen; the instructor is sent exactly when the user id is truthy, and it is that id |
| AdminDashboard.AdminDashboardPage.constructor | src/Pages/AdminDashboard.jsx:15-28 | initial state: empty lists, loading, no error or message, empty course form |
| AdminDashboard.AdminDashboardPage.LoadCourses | src/Pages/AdminDashboard.jsx:38-51 | the courses become the loaded list, or the load's error text is shown and the old list is kept |
| AdminDashboard.AdminDashboardPage.LoadEnrollments | src/Pages/AdminDashboard.jsx:54-69 | as a list load of enrolments; loading ends in every case |
| AdminDashboard.AdminDashboardPage.CreateCourse | src/Pages/AdminDashboard.jsx:72-98 | sends the form data; success shows "Course created successfully", clears the form and reloads; failure shows "Error creating course" and keeps the form |
| AdminDashboard.AdminDashboardPage.DeleteCourse | src/Pages/AdminDashboard.jsx:101-114 | success shows "Course deleted successfully" and reloads; failure shows "Error deleting course" |
| AdminDashboard.AdminDashboardPage.UpdateEnrollment | src/Pages/AdminDashboard.jsx:117-137 | sends the status; success shows "Enrollment " followed by the status and reloads; failure shows "Error updating enrollment" |
| AdminDashboard.AdminDashboardPage.Approve | src/Pages/AdminDashboard.jsx:267 | sends "approved"; reload exactly on success, which shows "Enrollment approved"; failure shows "Error updating enrollment"; the lists, loading flag and form are unchanged |
| AdminDashboard.AdminDashboardPage.Reject | src/Pages/AdminDashboard.jsx:271 | sends "rejected"; reload exactly on success, which shows "Enrollment rejected"; failure shows "Error updating enrollment"; the lists, loading flag and form are unchanged |
| Navbar.IsLoggedIn | src/Components/Navabar.jsx:22-24 | logged in exactly when `getItem("accessToken")` gives a non-empty string |
| Navbar.RoleOf | src/Components/Navabar.jsx:25 | `user?.role`: no role without a user, otherwise the user's role |
| Navbar.Links | src/Components/Navabar.jsx:71-121 | Courses exactly when logged in as student or admin; the admin and student dashboard links exactly for that role when logged in; Login/Register exactly when logged out, Logout otherwise (the mobile menu at lines 147-184 uses the same conditions) |
| Navbar.AtMostOneDashboard | src/Components/Navabar.jsx:82-91 | never both dashboard links, and a dashboard link always comes with Courses |
| Navbar.LoggedOutIsAnonymous | src/Components/Navabar.jsx:96-121 | without a non-empty token the bar is the anonymous one, whatever user is stored |
| Navbar.TokenWithoutUser | src/Components/Navabar.jsx:22-25 | a token without a stored user shows Logout but no role link |
| Navbar.Logout | src/Components/Navabar.jsx:27-32 | removes the access token, refresh token and user, keeps every other key, and goes to "/" |
| Navbar.LogoutIdempotent | src/Components/Navabar.jsx:27-31 | logging out twice leaves the same storage as once, and the bar is anonymous afterwards |
| Session.LogoutKeepsProfileKeys | src/Components/Navabar.jsx:27-31 | after a login, the bar's logout leaves the stored email and any student id behind |
| LoginPage.BuildRequest | src/Pages/LoginPage.jsx:22-23 | email and password as entered; the secret key exactly when the selected role is "admin" |
| LoginPage.LoginWrites | src/Pages/LoginPage.jsx:36-43 | adds exactly the two tokens, the stringified user and the email, plus "studentId" for a student login with a truthy user id; stores each as text; leaves every other key unchanged |
| LoginPage.Redirect | src/Pages/LoginPage.jsx:45-49 | "/admin/dashboard" exactly for a returned "admin" role, "/student/dashboard" otherwise |
| LoginPage.LoginNav | src/Pages/LoginPage.jsx:35-49 | navigation exactly after an ok response that carries a user, to the redirect for that user's role |
| LoginPage.LoginError | src/Pages/LoginPage.jsx:50-55 | no error exactly on an ok response with a user; a non-ok response shows `detail`, else `message`, else "Login failed"; an exception shows "Something went wrong" |
| LoginPage.NavigatesOrReports | src/Pages/LoginPage.jsx:35-58 | every login either navigates or shows an error, never both |
| LoginPage.LoginPage.constructor | src/Pages/LoginPage.jsx:6-9 | role "student", empty fields, no error, not loading |
| LoginPage.LoginPage.HandleLogin | src/Pages/LoginPage.jsx:16-59 | sends the built request; storage changes only on an ok response, and then exactly as `LoginWrites`; navigation and error follow `LoginNav` and `LoginError`; loading ends |
| Session.LoginStoresReadableUser | src/Pages/LoginPage.jsx:38 | with a faithful JSON codec, the guarded reader then sees exactly the user the login returned, and no user when there was none |
| Session.AdminLoginShowsAdminLinks | src/Pages/LoginPage.jsx:45-49 | an admin account with a non-empty token lands on the admin dashboard and the bar shows the admin link only, whatever role was selected |
| RegisterPage.BuildRequest | src/Pages/RegisterPage.jsx:31-43 | every form field under the API's name (first_name, last_name, date_of_birth, ...); the admin secret exactly for the "admin" role |
| RegisterPage.RegisterWrites | src/Pages/RegisterPage.jsx:57-68 | stores both tokens, and the stringified user exactly when one is returned; every other key is unchanged |
| RegisterPage.Redirect | src/Pages/RegisterPage.jsx:70-76 | "/student/dashboard" exactly for a returned student, "/admin/dashboard" exactly for an admin, "/home" otherwise |
| RegisterPage.RegisterError | src/Pages/RegisterPage.jsx:56-82 | no error exactly on an ok response with both tokens; missing tokens give their message; a non-ok response shows `message` or the fallback; an exception shows "An error occurred. Please try again." |
| RegisterPage.RegisterPage.constructor | src/Pages/RegisterPage.jsx:5-17 | role "student", empty form, no error, not loading |
| RegisterPage.RegisterPage.HandleRegister | src/Pages/RegisterPage.jsx:25-86 | sends the built request; with both tokens it stores as `RegisterWrites` and navigates by role; otherwise storage is untouched and nothing navigates; the error follows `RegisterError`; loading ends |
| Session.StudentRegistrationShowsStudentLinks | src/Pages/RegisterPage.jsx:57-71 | a student registration with both tokens lands on the student dashboard; the stored user reads back and the bar shows the student link only |

## Left out

- Network I/O, `fetch`, headers and endpoint URLs: each handler takes the response as a parameter (`Api.Response`).
- Rendering, JSX layout, CSS and animations: a page's view is a datatype naming what it shows.
- React's asynchronous state updates and the ordering of concurrent loads: each handler runs to completion on its own.
- `JSON.stringify`/`JSON.parse` and `encodeURIComponent` are library code and are parameters. The Navbar and the dashboards parse the stored user without a guard, and the exception an unparsable value throws there is not modelled: those pages take the parsed user as input.
- Js.NumberOf: `Number()` of text is only modelled for plain decimal digits. Signs, decimals, whitespace, `Number("") == 0` and `Number(null) == 0` are left out.
- StudentDashboard.Capitalize: `toUpperCase` only maps ASCII letters here, not the full Unicode case mapping.
- A list body that is an object without `results` and is not an array: the code stores the object itself, and the model has no such value.
- JSON `null` and an absent field are one case (`None`) in the response records. An ok login whose `user` or token is `null` stores the text "null", where the model stores "undefined"; every decision the model makes comes out the same.
- A `null` instructor on a course: `typeof null === "object"` makes the course page read `null.id` and crash, which is not modelled.
- The order field of the content form is entered as text and sent through `Number(order)`; the model keeps it as an integer.
- The link targets in the navigation bar: the desktop Courses link points to a literal "/course/details/:id", and the mobile one reads an undefined `course`. The model records only whether the links are shown.
- Route definitions (src/App.jsx), the home, about, contact and profile pages, the admin profile, the footer and progress monitoring are not part of this model.
