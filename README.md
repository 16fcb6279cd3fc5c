# Session lifecycle of the resort front end, in Dafny

This project models the client-side authentication core of a hotel booking
front end. It covers:

- the authentication context, which holds the signed-in user, the
  `isAuthenticated` flag and one persisted bearer token (browser storage key
  `jwtToken`). Login, registration, guest (room) login, logout and a one-shot
  startup rehydration change these. Role-based navigation follows a
  successful sign-in;
- the landing page's decisions: the redirect of signed-in visitors, the
  "Book Now" target, which links the desktop and mobile menus show, and the
  menu toggle;
- the login page's form: the email/room mode toggle, the dispatch of a
  submission to `login` or `guestLogin`, and the generic error message;
- the application's route table: six exact paths and a catch-all 404.

Each HTTP round-trip is an input to the operation that makes it. `AuthReply`
is what `/api/auth/login`, `/register` and `/guest-login` answer, and
`MeReply` is what `/api/auth/me` answers. Storage is the `token` field.
`navigate` is a `Navigator` object that records the last target.

The transitions are specified once, by the function `AuthContext.Step` on a
`Session` record holding token, user, flag and last target. The class
`AuthContext.AuthProvider` implements them on fields. Each transition
method (`Login`, `Register`, `GuestLogin`, `Logout`, `Rehydrate`) ensures
`Snapshot() == Step(old(Snapshot()), e)`. The lemmas about `Step`
and about `Run` (a sequence of steps) state what the code promises. The
page classes call the provider's methods, so they inherit the same
contracts.

Files: `wrappers.dfy` (Option, Result), `auth_context.dfy`,
`landing_page.dfy`, `login_page.dfy`, `app.dfy`. `app.dfy` imports the pages,
as `src/App.tsx` does, and holds the lemmas that relate navigation targets to
routes.

Three behaviours of the code are easy to misread; the model follows the code:

- A failed rehydration only removes the token; it does not touch the user or
  the flag (`src/context/AuthContext.tsx:47`).
- The code branches on the JavaScript truthiness of the stored token, so an empty stored
  string counts as "no token" and triggers no `/me` request
  (`src/context/AuthContext.tsx:40`).
- With no stored token, startup changes nothing.

## Model

| member | source | states |
|---|---|---|
| AuthContext.InitialIsValid | src/context/AuthContext.tsx:34-35 | the mount state has `isAuthenticated <==> user != null`, whatever storage holds |
| AuthContext.StepKeepsValid | src/context/AuthContext.tsx:33-111 | every transition keeps `isAuthenticated <==> user != null` |
| AuthContext.RunKeepsValid | src/context/AuthContext.tsx:33-111 | any sequence of transitions keeps `isAuthenticated <==> user != null` (induction) |
| AuthContext.SignInInstallsServerSession | src/context/AuthContext.tsx:51-104 | a successful login, register or guest login persists exactly the server token, holds the server user, sets the flag and navigates to its target |
| AuthContext.SignInForgetsPriorSession | src/context/AuthContext.tsx:51-104 | a successful sign-in's resulting state does not depend on the prior state (it overwrites any prior session) |
| AuthContext.LoginNavigatesByRole | src/context/AuthContext.tsx:58-60 | a successful login goes to `/operator-dashboard` for an operator and to `/guest-portal` otherwise |
| AuthContext.RegisterAndGuestLoginIgnoreRole | src/context/AuthContext.tsx:82-99 | register always goes to `/book` and guest login always to `/guest-portal`, whatever the role |
| AuthContext.FailedSignInChangesNothing | src/context/AuthContext.tsx:51-104 | a failed request rethrows and leaves token, user, flag and navigation unchanged |
| AuthContext.LogoutClears | src/context/AuthContext.tsx:106-111 | logout from any state removes the token, clears user and flag and navigates to `/` |
| AuthContext.LogoutIdempotent | src/context/AuthContext.tsx:106-111 | logging out twice equals logging out once |
| AuthContext.RehydrateCases | src/context/AuthContext.tsx:38-49 | no truthy stored token: nothing changes; `/me` succeeds: user and flag set, token kept; `/me` fails: only the token removed |
| AuthContext.ReloadRestoresSession | src/context/AuthContext.tsx:38-57 | after a sign-in with a non-empty token, a reload whose `/me` returns the same user restores the same token, user and flag |
| AuthContext.StaleTokenScenario | src/context/AuthContext.tsx:38-49 | stored `"abc123"` and a refused `/me` end with no token and no session |
| AuthContext.GuestRoleLoginScenario | src/context/AuthContext.tsx:51-60 | an email login of a guest-role user answered with token `"t1"` holds that user and token and targets `/guest-portal` |
| AuthContext.TokenComesFromStorageOrServer | src/context/AuthContext.tsx:38-111 | after any sequence of transitions, the stored token is absent, the one stored at the start, or one a server reply issued in the sequence (induction) |
| AuthContext.UserComesFromServer | src/context/AuthContext.tsx:33-111 | after any sequence of transitions, the user is absent, the initial one, or one a server reply sent in the sequence (induction) |
| AuthContext.RunWithoutRehydrateKeepsConsistent | src/context/AuthContext.tsx:51-111 | sign-ins and logouts keep "valid, and authenticated implies a stored token" (induction) |
| AuthContext.StartupKeepsConsistent | src/context/AuthContext.tsx:33-111 | from mount, with rehydration only as the first transition, an authenticated session always has a stored token |
| AuthContext.LateRehydrateBreaksConsistency | src/context/AuthContext.tsx:38-57 | a rehydration failing after a login leaves an authenticated session with no token, so the previous property needs rehydration first |
| AuthContext.AuthProvider.constructor | src/context/AuthContext.tsx:33-35 | mounting keeps the stored token and starts with no user and flag false |
| AuthContext.AuthProvider.Rehydrate | src/context/AuthContext.tsx:38-49 | the startup effect's new state is `Step(old state, Rehydrate(me))`; it never navigates |
| AuthContext.AuthProvider.SignIn | src/context/AuthContext.tsx:54-60 | the writes of a successful sign-in: token, user, flag, then navigation to the target (cited at login; register and guest login repeat them at lines 78-82 and 95-99) |
| AuthContext.AuthProvider.Login | src/context/AuthContext.tsx:51-65 | new state is `Step(old state, Login(reply))`; the promise rejects exactly when the request failed |
| AuthContext.AuthProvider.Register | src/context/AuthContext.tsx:67-87 | new state is `Step(old state, Register(reply))`; the promise rejects exactly when the request failed |
| AuthContext.AuthProvider.GuestLogin | src/context/AuthContext.tsx:89-104 | new state is `Step(old state, GuestLogin(reply))`; the promise rejects exactly when the request failed |
| AuthContext.AuthProvider.Logout | src/context/AuthContext.tsx:106-111 | new state is `Step(old state, Logout)`, which is valid |
| AuthContext.UseAuth | src/context/AuthContext.tsx:122-127 | throws "useAuth must be used within an AuthProvider" exactly when there is no provider; otherwise returns it |
| AuthContext.StaleTokenOnProvider | src/context/AuthContext.tsx:38-49 | on the class itself: a stale stored token and a refused `/me` end with no token and no session |
| AuthContext.LoginThenLogoutOnProvider | src/context/AuthContext.tsx:51-111 | on the class itself: a login holds the server session, a failed guest login changes nothing, and a logout clears everything |
| Landing.RedirectTarget | src/pages/LandingPage.tsx:10-18 | an authenticated guest is sent to `/guest-portal`, an authenticated operator to `/operator-dashboard`, and nobody else is sent anywhere |
| Landing.StartBookingTarget | src/pages/LandingPage.tsx:20-26 | `/book` exactly for an authenticated guest, `/signup` in every other case |
| Landing.DesktopNav | src/pages/LandingPage.tsx:37-72 | Login and Sign Up shown exactly when signed out; Guest Portal and Logout exactly for a signed-in guest; fixed links around them |
| Landing.MobileMenu | src/pages/LandingPage.tsx:79-119 | rendered exactly when the menu is open, and then its own item list equals the desktop one |
| Landing.RedirectAgreesWithLogin | src/pages/LandingPage.tsx:10-18 | on a valid session, the redirect goes where a login for the same role navigates |
| Landing.OperatorSeesNoSessionLinks | src/pages/LandingPage.tsx:44-62 | a signed-in operator sees neither link group, and "Book Now" sends them to `/signup` |
| Landing.LandingPage.constructor | src/pages/LandingPage.tsx:5-8 | the menu starts closed |
| Landing.LandingPage.ToggleMenu | src/pages/LandingPage.tsx:28 | negates `menuOpen` |
| Landing.ToggleTwiceRestores | src/pages/LandingPage.tsx:28 | two toggles restore the menu state |
| Landing.LandingPage.RedirectEffect | src/pages/LandingPage.tsx:10-18 | navigates to the redirect target when there is one, and otherwise leaves the router alone |
| Landing.LandingPage.HandleStartBooking | src/pages/LandingPage.tsx:20-26 | navigates to the "Book Now" target for the context's current session |
| Landing.LandingPage.Press | src/pages/LandingPage.tsx:58-117 | the Logout buttons run the context's logout, "Book Now" only navigates, and the hamburger only toggles the menu |
| Login.SubmitCall | src/pages/Authentication/LoginPage.tsx:13-20 | guest mode calls guest login with room number and full name; email mode calls login with email and password; exactly one |
| Login.VisibleInputs | src/pages/Authentication/LoginPage.tsx:40-86 | email mode shows Email and Password, room mode shows Room Number and Full Name |
| Login.ErrorBanner | src/pages/Authentication/LoginPage.tsx:30 | the error paragraph is rendered exactly for a non-empty message, showing it |
| Login.SubmitKeepsSessionValid | src/pages/Authentication/LoginPage.tsx:13-24 | a submission keeps the session valid, changes nothing when it fails, and on success navigates by mode and role |
| Login.LoginPage.constructor | src/pages/Authentication/LoginPage.tsx:4-11 | first render: email mode, empty inputs, no error |
| Login.LoginPage.ToggleMode | src/pages/Authentication/LoginPage.tsx:31-34 | flips the mode and keeps all four inputs and the error |
| Login.LoginPage.SetEmail | src/pages/Authentication/LoginPage.tsx:47 | sets the email and nothing else |
| Login.LoginPage.SetPassword | src/pages/Authentication/LoginPage.tsx:57 | sets the password and nothing else |
| Login.LoginPage.SetRoomNumber | src/pages/Authentication/LoginPage.tsx:70 | sets the room number and nothing else |
| Login.LoginPage.SetFullName | src/pages/Authentication/LoginPage.tsx:80 | sets the full name and nothing else |
| Login.LoginPage.HandleSubmit | src/pages/Authentication/LoginPage.tsx:13-24 | calls exactly the operation `SubmitCall` picks, the context takes that step, any failure sets "Invalid credentials", and success leaves the error as it was |
| App.Resolve | src/App.tsx:16-24 | total: a declared path renders its page, and every other path renders the 404 element |
| App.RoutesAreDistinct | src/App.tsx:17-22 | no two declared paths share a page, and none renders the 404 element |
| App.DeclaredPathsResolve | src/App.tsx:17-22 | `/`, `/book`, `/guest-portal`, `/operator-dashboard`, `/login` and `/admin` each resolve to their own page |
| App.SignupIsNotFound | src/App.tsx:17-23 | `/signup` and `/contact` resolve to the 404 element |
| App.ContextTargetsResolve | src/App.tsx:17-23 | every target the context navigates to (on logout and on every successful sign-in) is a declared page |
| App.RedirectResolves | src/pages/LandingPage.tsx:10-18 | the landing redirect lands on the guest portal or operator dashboard page for the visitor's role |
| App.StartBookingResolves | src/pages/LandingPage.tsx:20-26 | "Book Now" renders the booking page for a signed-in guest and the 404 element for everyone else |
| App.LandingLinksResolve | src/pages/LandingPage.tsx:37-72 | of the landing navigation's links, exactly Sign Up and Contact lead to the 404 element |
| App.LoginSubmitResolves | src/pages/Authentication/LoginPage.tsx:13-24 | a login-page submission leaves the router on a declared page or where it was |

## Left out

- Login.LoginPage.constructor: takes the provider directly, because every route sits inside one; what the hook does outside a provider is `UseAuth`.
- Login.LoginPage.HandleSubmit: accepts any inputs. In the page, the inputs are `required` and the email input has `type="email"` (`src/pages/Authentication/LoginPage.tsx:45-82`), so the browser runs the submit handler only when the visible inputs are non-empty and the email is well-formed. Browser form validation is not modelled.
- HTTP calls: the requests, the `Authorization: Bearer` header (section 2.1 of RFC 6750) and JSON decoding are not modelled. Each answer is an input. The credentials are accepted as arguments but affect nothing in the model.
- Malformed server answers are not modelled; replies here always carry a token and a user. A reply without a token would store the string "undefined". A reply without a user would set a null user with the flag true. For `login` it would then throw at `userData.role` (`src/context/AuthContext.tsx:59`) after the writes at lines 55-57: the promise rejects with token, user and flag already changed, and the login page shows "Invalid credentials". This is the one way a rejected sign-in changes state, and the model does not capture it.
- Roles outside the declared `"guest" | "operator"` union are not modelled. `Role` has exactly those two values.
- Storage is one `Option<string>` field, not the browser API.
- React hooks, re-rendering and effect scheduling are not modelled. The redirect effect and the rehydration are methods the caller runs. The provider does not enforce that rehydration runs once.
- The race between rehydration and an early sign-in is concurrency and is not modelled. `StartupKeepsConsistent` lets rehydration occur only as the first transition, and `RunWithoutRehydrateKeepsConsistent` not at all; `RunKeepsValid`, `TokenComesFromStorageOrServer` and `UserComesFromServer` allow it anywhere. `LateRehydrateBreaksConsistency` shows what a late one would do.
- `console.error` logging, `e.preventDefault()`, markup, CSS, images and static text are not modelled. Footer links are not modelled either.
- Following a plain `<a href>` link is a full page load handled by the browser, not by this code. Only the targets of those links are modelled (`DesktopNav`, `LandingLinksResolve`).
- react-router's matching (ranking, case-insensitivity, trailing slashes) is not modelled. Routes are an exact-path map plus the catch-all.
- The pages the routes render but which are not shown here (booking page, guest portal, operator dashboard, admin login) are not part of this model.
