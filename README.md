# Student–advisor matcher client, modelled in Dafny

This project models the browser client of the student–advisor matcher. Students and
lecturers (called "advisors" in the code) register, sign in and complete a profile. The
client then sends each user to the page that fits their role and profile state. The model
covers:

- **App** (`app.dfy`): the session App keeps in React state over `localStorage`, namely
  boot from storage, `login`, `logout` and the two background profile checks. It also holds
  the redirect policy (`getStudentRedirectPath`, `getAdvisorRedirectPath`) and the
  `<Routes>` table as a function from a location to what is rendered. Lemmas show which
  redirect chains settle and which loop.
- **Navbar** (`navbar.dfy`): where the logo and "Home" links point, when "Home" is
  highlighted, and the logout handler.
- **Api** (`api.dfy`): the shared HTTP client's two interceptors. The request interceptor
  adds the bearer token. The response interceptor clears the session on 401.
- **CompleteProfile** (`complete_profile.dfy`): the capped multi-select dropdown and the
  form's submit checks.
- **StudentProfile** (`student_profile.dfy`): the page behind "/complete-profile". It has
  capped toggles, submit checks and payload, and the load defaults.
- **LecturerProfile** (`lecturer_profile.dfy`): uncapped toggles, the two capacity inputs,
  the save checks and payload, and the load defaults.
- **StudentRegister**, **LecturerRegister** (`student_register.dfy`,
  `lecturer_register.dfy`): `validateForm`, the submit gate and the handling of the
  registration response.
- Support modules:
  - `Wrappers`: `Option` / `Result`.
  - `Lists`: `filter(item => item !== x)` as `Without`, with its laws.
  - `Strings`: ECMAScript `String.prototype.trim`, decimal rendering, and `||` on strings.
  - `Storage`: `localStorage` as a class over a `map<string, string>`.

### How the model is built

State the source mutates is a class:
- App's session, over a shared `LocalStorage`;
- each page's `useState` fields;
- the request configuration.

Each handler is a method whose `ensures` gives the whole new state. The decisions inside the
handlers are pure functions with their own contracts, for example the toggles, the checks and
the load defaults. Lemmas relate those functions to each other.

JavaScript truthiness is written out:
- A stored value counts only when present and non-empty.
- `x || 5` on a number replaces both a missing value and 0.
- `x || []` keeps an empty array.

A request's outcome is an input of the handler that consumes it. The ordering of the
asynchronous steps is the caller's.

### Where the specification and the code differ (the model follows the code)

- App has no "pending" profile state and no generation counter. Loading ends as soon as the
  keys are read, before any check completes. A profile response that arrives after
  `logout` is still cached (`App.Session.OnStudentResponse` applies any response).
- When only one of the two storage keys is present, boot ignores it. It does not clear it.
- App routes "/complete-profile" to the StudentProfile page. It never routes to the
  CompleteProfile component, which is modelled on its own as written.
- App reads the advisor check's body as `{ success, advisor }`. LecturerProfile reads the
  profile fields directly from the same endpoint's body. Each consumer is modelled with
  its own shape.
- A signed-in user whose role is neither "student" nor "advisor" is redirected from every
  public route to "/", and from "/" to "/" again (`App.UnknownRoleNeverSettles`).

## Model

| member | source | states |
|---|---|---|
| App.StudentRedirectPath | src/App.js:105-113 | The target is always a student route. It is "/complete-profile" exactly when no profile with a non-empty interest list is cached. It is "/match" exactly when such a profile is not matched, and "/student-dashboard" exactly when it is. |
| App.AdvisorRedirectPath | src/App.js:116-122 | The target is always an advisor route. It is "/lecturer-dashboard" exactly when the cached advisor profile is completed, else "/lecturer-profile". |
| App.SignedInTarget | src/App.js:143-148 | A student goes to the student target and an advisor to the advisor target. Any other role goes to "/". |
| App.LecturerRegisterTarget | src/App.js:189-194 | On "/lecturer-register" an advisor goes to the advisor target and a student to the student target. The target is "/" exactly for any other role. |
| App.PublicTargetsAgree | src/App.js:189-194 | "/lecturer-register" tests the roles in the opposite order, yet reaches the same target as the other public routes. |
| App.RouteElement | src/App.js:138-272 | Public routes render their page with nobody signed in and otherwise redirect to the role's target. Student and advisor routes render exactly for their role and otherwise go to "/login". "/student-profile" sends a student to the student target and anyone else to "/login". Unknown paths go to "/". |
| App.TargetRenders | src/App.js:202-256 | For a student or advisor, the policy target renders a page without a further redirect. |
| App.RedirectsSettle | src/App.js:138-272 | With nobody signed in, or a student or advisor signed in, every location renders a page within two redirects. |
| App.UnknownRoleNeverSettles | src/App.js:140-153 | For a user with an unknown role, "/" redirects to "/" however many redirects are followed. |
| App.CheckFor | src/App.js:31-35 | The student check is started exactly for role "student" and the advisor check exactly for "advisor", each with the session token. Any other role starts none. |
| App.StudentAfter | src/App.js:50-53 | Only an ok response replaces the cached student profile, with its body. |
| App.AdvisorAfter | src/App.js:69-77 | The cached advisor profile changes only on an ok response with `success`, and then becomes its `advisor`. |
| App.Session.constructor | src/App.js:17-20 | The first render has no user, is loading, and holds no cached profiles. |
| App.Session.Boot | src/App.js:22-43 | The user is restored only when both keys hold a value and the user text parses to a record, and then the role's check is started. A `null` text is set as the user before its role is read, so nobody is signed in afterwards. A malformed text throws before the user is set, so the user is kept. Either way both keys are cleared. Storage is otherwise unchanged. Loading always ends. |
| App.Session.View | src/App.js:124-133 | The spinner is shown exactly while the user is loading. Afterwards the route table decides. |
| App.Session.OnStudentResponse | src/App.js:45-57 | The student cache becomes `StudentAfter` of the response. Nothing else changes. |
| App.Session.OnAdvisorResponse | src/App.js:59-81 | The advisor cache becomes `AdvisorAfter` of the response. A 404 leaves it as it was. Nothing else changes. |
| App.Session.Login | src/App.js:83-94 | Both keys are written, the user is set and the role's check is started. The cached profiles are kept. |
| App.Session.Logout | src/App.js:96-102 | Both keys are removed and the user and both profiles are forgotten. Afterwards every guarded route and "/student-profile" redirect to "/login". |
| Navbar.HomePath | src/components/Navbar.jsx:14-26 | With no user the link is "/". A `type` of "student" gives "/match" and "advisor" gives "/lecturer-dashboard". Only these three targets occur. |
| Navbar.DashboardPath | src/components/Navbar.jsx:29-38 | The same three cases. It is "/" exactly when there is no user or the `type` is neither role. |
| Navbar.HomeAndDashboardAgree | src/components/Navbar.jsx:14-38 | The two path functions agree for every user. |
| Navbar.RoleOnlyStudentGoesHome | src/components/Navbar.jsx:17-21 | A student record with `role` and no `type` (the shape App stores) gets "/" as its home link. |
| Navbar.HomePathByRole | src/components/Navbar.jsx:14-26 | The corrected home path, keyed on `role`: "/match" for students, "/lecturer-dashboard" for advisors, "/" otherwise. |
| Navbar.HomePathByRoleRenders | src/components/Navbar.jsx:14-26 | For no user, a student or an advisor, the corrected link's target renders a page in App's route table. |
| Navbar.HomeActive | src/components/Navbar.jsx:55-58 | The "Home" link is highlighted only on "/" or a student or advisor landing route, never on a profile form. It is always highlighted on "/" and "/match". |
| Navbar.HomeLinkHighlightedOnItsTarget | src/components/Navbar.jsx:55-58 | The "Home" link is highlighted on its own target, in both versions. |
| Navbar.HomeNotHighlightedOnFormPages | src/components/Navbar.jsx:55-58 | The highlight is off on the login, register and profile paths. |
| Navbar.HandleLogout | src/components/Navbar.jsx:8-11 | After logout the session is empty, both keys are gone, and the move to "/" renders the home page. |
| Api.OnRequest | src/config/api.js:10-17 | With a non-empty token stored, the same configuration object gains `Authorization: Bearer <token>`. Otherwise its headers are unchanged. |
| Api.OnRequestError | src/config/api.js:18-21 | The error is rejected unchanged. |
| Api.OnResponse | src/config/api.js:26-29 | The response passes through unchanged. |
| Api.OnResponseError | src/config/api.js:30-39 | A 401 removes exactly the two session keys and reloads "/login". Any other error leaves storage alone and does not reload. The error is rejected either way. |
| Api.UnauthorizedThenRequest | src/config/api.js:9-39 | After a 401, the next request leaves the headers untouched (no stale token is sent). |
| Lists.Without | src/pages/CompleteProfile.jsx:20 | The filter removes every copy of the item and keeps every other member. It never grows the list, shrinks it when the item was present, and keeps a list duplicate-free. |
| CompleteProfile.ToggleOption | src/pages/CompleteProfile.jsx:17-26 | `onChange` is skipped exactly when the option is absent and the cap is reached. Otherwise the option's membership flips and every other option's is kept. An addition goes at the end. A duplicate-free list within the cap stays so. |
| CompleteProfile.RemoveOption | src/pages/CompleteProfile.jsx:28-31 | The option is absent afterwards, every other option's membership is kept, and well-formedness is preserved for every cap. |
| CompleteProfile.ToggleSelectedCutsOut | src/pages/CompleteProfile.jsx:19-20 | Toggling a selected option removes exactly that entry and keeps the order of the rest. |
| CompleteProfile.ToggleTwice | src/pages/CompleteProfile.jsx:17-26 | Below the cap, toggling an absent option twice restores the list. |
| CompleteProfile.SubmitError | src/pages/CompleteProfile.jsx:187-204 | The request is sent exactly when there are at least 2 interests, at least 2 goals and a year level. Otherwise the first failing check's message is shown (each as an if-and-only-if). |
| CompleteProfile.Page.constructor | src/pages/CompleteProfile.jsx:129-135 | The form starts empty, not loading, with no error. |
| CompleteProfile.Page.ToggleResearch | src/pages/CompleteProfile.jsx:170-172 | The interest list becomes the dropdown's `onChange` value, and stays as it is when `onChange` is skipped. |
| CompleteProfile.Page.ToggleCareer | src/pages/CompleteProfile.jsx:174-176 | The same for the career goals. |
| CompleteProfile.Page.Submit | src/pages/CompleteProfile.jsx:182-212 | The error is cleared. The form is sent exactly when `SubmitError` finds none. Otherwise the error is shown and loading ends. |
| CompleteProfile.Page.OnSubmitResponse | src/pages/CompleteProfile.jsx:214-221 | A response with a student navigates to "/match". A failure shows the server's message or "Failed to complete profile". Loading ends. |
| Strings.Trim | src/pages/StudentRegister.jsx:19-20 | The trimmed text is empty exactly when the text is all ECMAScript white space or line terminators. |
| Strings.OrElse | src/pages/CompleteProfile.jsx:218 | `s || fallback`: a missing or empty message is replaced by the fallback, and any other is kept. |
| StudentProfile.Toggle | src/pages/StudentProfile.jsx:50-62 | A present value is filtered out. An absent value is appended below the cap. At the cap the profile is unchanged and "Maximum <max> <key> allowed" is set, exactly then. The other list and the year are kept. A duplicate-free list within the cap stays so. |
| StudentProfile.ToggleTwice | src/pages/StudentProfile.jsx:53-60 | Below the cap, toggling an absent value twice restores the profile with no message. |
| StudentProfile.SubmitCheck | src/pages/StudentProfile.jsx:68-91 | The payload is built exactly when there is a token, at least one interest, at least one goal and a year. It carries exactly the three fields. Otherwise the first failing check's message is returned, in source order. |
| StudentProfile.Load | src/pages/StudentProfile.jsx:35-39 | Each missing field becomes `[]` or `""`. Each present field is kept as stored. |
| StudentProfile.SaveThenLoad | src/pages/StudentProfile.jsx:87-91 | A payload, stored back, loads as the profile that produced it. |
| StudentProfile.Page.constructor | src/pages/StudentProfile.jsx:11-18 | Empty profile, not loading or saving, no message. |
| StudentProfile.Page.LoadProfile | src/pages/StudentProfile.jsx:23-48 | Without a token only the "logged in" message is set. With one, a loaded profile passes through `Load`, a failure keeps the form, and loading ends. |
| StudentProfile.Page.ToggleValue | src/pages/StudentProfile.jsx:50-62 | The profile becomes `Toggle`'s. The cap message, when set, becomes an error message. |
| StudentProfile.Page.Submit | src/pages/StudentProfile.jsx:64-92 | The message is cleared. Either `SubmitCheck`'s payload is sent with saving on, or its error is shown and nothing is sent. |
| StudentProfile.Page.OnSaveResponse | src/pages/StudentProfile.jsx:95-110 | Success shows the success text. A failure shows the server's message or "Saving profile failed.". Saving ends. |
| LecturerProfile.ToggleSelection | src/pages/LecturerProfile.jsx:56-64 | A present value is filtered out and an absent one appended, with no cap. The other list and the scalar fields are kept. Duplicate-freedom is preserved. |
| LecturerProfile.ToggleTwice | src/pages/LecturerProfile.jsx:59-62 | Toggling an absent value twice restores the profile, whatever the list's length. |
| LecturerProfile.SetMaxStudents | src/pages/LecturerProfile.jsx:227-231 | As written: the maximum becomes `n \|\| 1` while the available slots are `n -` occupied. The occupied count is kept for every entry except 0. |
| LecturerProfile.MaxStudentsZeroAddsOccupied | src/pages/LecturerProfile.jsx:229-230 | Entering 0 sets the maximum to 1 and adds one occupied slot. |
| LecturerProfile.SetMaxStudentsKeepingOccupied | src/pages/LecturerProfile.jsx:227-231 | Corrected: the same maximum, with the occupied count kept for every entry. |
| LecturerProfile.MaxStudentsVersionsAgree | src/pages/LecturerProfile.jsx:227-231 | Both versions agree on every entry except 0. |
| LecturerProfile.SetAvailableSlots | src/pages/LecturerProfile.jsx:246-249 | The available slots become the entry, or 0 for a non-number. Nothing else changes. |
| LecturerProfile.SaveCheck | src/pages/LecturerProfile.jsx:68-89 | The payload is built exactly when there is a token, at least one interest and at least one expertise area. It carries every profile field and `completedProfile: true`. Otherwise the first failing check's message is returned, in source order. |
| LecturerProfile.Load | src/pages/LecturerProfile.jsx:36-43 | As written: a missing or 0 maximum or slot count becomes 5. Missing lists become `[]` and a missing bio `""`. |
| LecturerProfile.LoadCompleted | src/pages/LecturerProfile.jsx:44 | `!!completedProfile`: a missing flag reads as not completed, and a stored flag is kept. |
| LecturerProfile.FullAdvisorLoadsWithFiveSlots | src/pages/LecturerProfile.jsx:41 | A saved profile with no available slots loads with 5. |
| LecturerProfile.LoadKeepingZero | src/pages/LecturerProfile.jsx:36-43 | Corrected: a stored slot count is kept, 0 included. Only a missing one becomes 5. |
| LecturerProfile.SaveThenLoad | src/pages/LecturerProfile.jsx:86-89 | With the corrected defaults, every saved profile with a non-zero maximum loads back as itself and as completed. |
| LecturerProfile.Page.constructor | src/pages/LecturerProfile.jsx:11-21 | The initial profile has 5 maximum and 5 available, empty lists and bio, no message, and is not completed. |
| LecturerProfile.Page.Load | src/pages/LecturerProfile.jsx:25-54 | Without a token it navigates to "/login" and changes nothing. With one, a response with data sets the profile through the corrected defaults and the completed flag. Otherwise it keeps both. Loading ends. |
| LecturerProfile.Page.Toggle | src/pages/LecturerProfile.jsx:56-64 | The profile becomes `ToggleSelection`'s. Nothing else changes. |
| LecturerProfile.Page.ChangeMaxStudents | src/pages/LecturerProfile.jsx:227-231 | The profile becomes the corrected capacity update, and the occupied count is kept. |
| LecturerProfile.Page.ChangeAvailableSlots | src/pages/LecturerProfile.jsx:246-249 | The profile becomes `SetAvailableSlots`'s. |
| LecturerProfile.Page.Save | src/pages/LecturerProfile.jsx:66-92 | Either `SaveCheck`'s payload is sent with saving on and the message cleared, or its error is shown and nothing is sent. |
| LecturerProfile.Page.OnSaveResponse | src/pages/LecturerProfile.jsx:93-106 | Success shows the success text and sets `completedProfile`. A failure shows the server's message or "Failed to save profile." and keeps the flag. Saving ends. |
| StudentRegister.EmptyErrorsIffAcceptable | src/pages/StudentRegister.jsx:31 | The error map is empty exactly when the name and the registration number are not blank, the password has at least 6 characters and the confirmation matches. |
| StudentRegister.ValidateForm | src/pages/StudentRegister.jsx:17-25 | There is an entry exactly for each failing field, with that field's message. An empty password reports the length message, which overwrites "Password is required". The map is empty exactly for an acceptable form. |
| StudentRegister.Page.constructor | src/pages/StudentRegister.jsx:8-15 | Empty form, no errors, not loading. |
| StudentRegister.Page.Submit | src/pages/StudentRegister.jsx:27-47 | A request is sent exactly for an acceptable form, as role "student", with the errors cleared and loading on. Otherwise the non-empty error map is shown. |
| StudentRegister.Page.OnResponse | src/pages/StudentRegister.jsx:51-75 | With a non-empty token the user is signed in and sent to "/student-profile". Without a token the `submit` error is "…no authentication token received". On a failure it is the server's message, else the error's, else the fixed text. Loading ends. |
| StudentRegister.RegisteredStudentLandsOnTarget | src/App.js:259-268 | "/student-profile" redirects a signed-in student straight to the student policy target. |
| LecturerRegister.EmptyErrorsIffAcceptable | src/pages/LecturerRegister.jsx:35 | As for students, with the staff number. |
| LecturerRegister.ValidateForm | src/pages/LecturerRegister.jsx:21-29 | As for students, with "Staff number is required". |
| LecturerRegister.Page.constructor | src/pages/LecturerRegister.jsx:12-19 | Empty form, no errors, not loading. |
| LecturerRegister.Page.Submit | src/pages/LecturerRegister.jsx:31-56 | A request is sent exactly for an acceptable form, as role "advisor". Otherwise the errors are shown. |
| LecturerRegister.Page.OnResponse | src/pages/LecturerRegister.jsx:60-81 | With a non-empty token the user is signed in and sent to "/lecturer-profile". Without a token the errors are untouched. On a failure the `submit` error falls back to "Registration failed". Loading ends. |
| LecturerRegister.RegisteredAdvisorLandsOnProfile | src/App.js:247-256 | "/lecturer-profile" renders the profile page for the newly signed-in advisor. |

## Left out

- HTTP requests, endpoints, base URLs and JSON bodies: each response is an input datatype
  of the handler that consumes it, and the order in which asynchronous steps interleave is
  left to the caller.
- `JSON.parse` and `JSON.stringify`: boot takes the parse as a function parameter and
  login takes the stringified text as an argument. A parsed value that is falsy but not
  `null` (`false`, `0`, `""`) is not distinguished from a record.
- Rendering, markup, styling, the dropdown's open/closed state, `console` output, and the
  2-second `setTimeout` navigations after a successful save.
- The plain field setters (the year-level selects, the bio text area, the register forms'
  text inputs): each only copies an input into one field.
- The branch of the register pages that writes storage itself when no `onLogin` is given:
  App always passes `onLogin`.
- Login.jsx, MatchPage.jsx, the dashboards, Home.jsx, Notfound.jsx and pages/api/register.js
  are not part of this model.
- StudentRegister.ValidateForm: the password length counts Unicode scalar values, where
  JavaScript counts UTF-16 code units. For example "😀😀😀" has length 6 in JavaScript and
  passes, but has length 3 here and fails. The same holds for the gate in
  `StudentRegister.Page.Submit`.
- LecturerRegister.ValidateForm: the same difference in how the password length is counted.
  It also applies to the gate in `LecturerRegister.Page.Submit`.
- App.RouteElement: `path` is the route pattern the location matched, compared as an exact
  string. The router's own matching is not modelled: it ignores case and accepts a trailing
  slash, so "/LOGIN" and "/login/" both render the login route. "Unknown paths go to "/""
  therefore holds only after that normalisation.
- LecturerProfile.SetMaxStudents: the entry is an integer. A non-numeric entry (`parseInt`
  gives `NaN`, so `availableSlots` becomes `NaN`) is not represented.
- LecturerProfile.SaveThenLoad: assumes a non-zero maximum. A stored maximum of 0 still
  loads as 5, but no input of the page can produce one.
- LecturerProfile.Page.Load and LecturerProfile.Page.ChangeMaxStudents: use the
  corrected functions (`LoadKeepingZero`, `SetMaxStudentsKeepingOccupied`). The code as
  written is `LecturerProfile.Load` and `LecturerProfile.SetMaxStudents`.
- StudentProfile.Toggle: the cap is a natural number, because both call sites pass 4.
- Api.OnResponseError: `window.location.href = "/login"` is returned as the location to
  load. The page reload itself is not modelled.

## Findings

| source | as written | input that shows it | evidently intended | confidence | as-written member | corrected member |
|---|---|---|---|---|---|---|
| src/pages/LecturerProfile.jsx:227-231 | `maxStudents` falls back to 1 while `availableSlots` is computed from the raw entry | with 5 maximum and 5 available, entering 0 gives maximum 1 and 0 available: one occupied slot out of none | the available slots follow the maximum actually stored, so the occupied count is kept | not executed; high | LecturerProfile.MaxStudentsZeroAddsOccupied | LecturerProfile.SetMaxStudentsKeepingOccupied |
| src/pages/LecturerProfile.jsx:41 | `availableSlots \|\| 5` treats a stored 0 as missing | an advisor saved with 3 maximum and 0 available loads with 5 available | only a missing value defaults to 5; a stored 0 is kept | not executed; high | LecturerProfile.FullAdvisorLoadsWithFiveSlots | LecturerProfile.LoadKeepingZero |
| src/components/Navbar.jsx:17-23 | the links read `user.type`, while App and the sign-in flow key every decision on `user.role` | a student record `{ role: "student" }` with no `type` gets "/" as its Home link | key the links on `role` | not executed; medium (the server's user record is not part of this model) | Navbar.RoleOnlyStudentGoesHome | Navbar.HomePathByRole |
