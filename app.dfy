/**
 * The application's route table: six exact paths, each to its page, and
 * a catch-all to the 404 element. Every route sits inside the provider and
 * none is guarded, so resolution takes a path and nothing else. The lemmas
 * at the end relate the table to the targets the context and the pages
 * navigate or link to.
 */
module App {
  import opened Wrappers
  import opened AuthContext
  import Landing
  import Login

  /** The element a route renders. */
  datatype Page = LandingPage | BookingPage | GuestPortal | OperatorDashboard | LoginPage | AdminLogin | NotFound

  /** The six exact paths and their pages; every other path falls to the catch-all "*". */
  const Routes: map<string, Page> := map[
    "/" := LandingPage,
    "/book" := BookingPage,
    "/guest-portal" := GuestPortal,
    "/operator-dashboard" := OperatorDashboard,
    "/login" := LoginPage,
    "/admin" := AdminLogin
  ]

  /** The page a path renders: its route's page, or the 404 element. */
  function Resolve(path: string): (p: Page)
    ensures p == NotFound <==> path !in Routes
    ensures path in Routes ==> p == Routes[path]
  {
    if path in Routes then Routes[path] else NotFound
  }

  /** No two paths share a page, and the 404 element has no path of its own. */
  lemma RoutesAreDistinct(a: string, b: string)
    requires a in Routes && b in Routes
    ensures Routes[a] != NotFound
    ensures Routes[a] == Routes[b] ==> a == b
  {
  }

  /** Each declared path resolves to its own page. */
  lemma DeclaredPathsResolve()
    ensures Resolve("/") == LandingPage
    ensures Resolve("/book") == BookingPage
    ensures Resolve("/guest-portal") == GuestPortal
    ensures Resolve("/operator-dashboard") == OperatorDashboard
    ensures Resolve("/login") == LoginPage
    ensures Resolve("/admin") == AdminLogin
  {
  }

  /** Sign-up, which the landing page and the login page send visitors to, has no route. */
  lemma SignupIsNotFound()
    ensures Resolve("/signup") == NotFound
    ensures Resolve("/contact") == NotFound
  {
  }

  /** Every target the context navigates to is a real page. */
  lemma ContextTargetsResolve(s: Session, e: Event)
    ensures e.Logout? || SignInSucceeds(e) ==> Step(s, e).lastNav.Some? && Resolve(Step(s, e).lastNav.value) != NotFound
    ensures SignInSucceeds(e) ==> Resolve(SignInTarget(e)) != NotFound
  {
    DeclaredPathsResolve();
  }

  /** The landing redirect always lands on the page for the visitor's role. */
  lemma RedirectResolves(isAuthenticated: bool, user: Option<User>)
    ensures var t := Landing.RedirectTarget(isAuthenticated, user);
            t.Some? ==> Resolve(t.value) == (if user.value.role == Guest then GuestPortal else OperatorDashboard)
  {
    DeclaredPathsResolve();
  }

  /** "Book Now" reaches the booking page only for a signed-in guest; everyone else gets the 404 element. */
  lemma StartBookingResolves(isAuthenticated: bool, user: Option<User>)
    ensures Resolve(Landing.StartBookingTarget(isAuthenticated, user))
      == if isAuthenticated && Landing.HasRole(user, Guest) then BookingPage else NotFound
  {
    DeclaredPathsResolve();
    SignupIsNotFound();
  }

  /** Of the landing page's navigation links, exactly "Sign Up" and "Contact" lead to the 404 element. */
  lemma LandingLinksResolve(isAuthenticated: bool, user: Option<User>, k: nat)
    requires k < |Landing.DesktopNav(isAuthenticated, user)|
    requires Landing.DesktopNav(isAuthenticated, user)[k].Anchor?
    ensures var href := Landing.DesktopNav(isAuthenticated, user)[k].href;
            Resolve(href) == NotFound <==> href == "/signup" || href == "/contact"
  {
    DeclaredPathsResolve();
    SignupIsNotFound();
    var nav := Landing.DesktopNav(isAuthenticated, user);
    assert forall j :: 0 <= j < |nav| && nav[j].Anchor? ==>
      nav[j].href in {"/", "/book", "/login", "/signup", "/guest-portal", "/contact"};
  }

  /** From every state a login-page submission leaves the router on a real page, or where it was. */
  lemma LoginSubmitResolves(s: Session, isGuestMode: bool, f: Login.Fields, reply: AuthReply)
    ensures var after := Step(s, Login.CallEvent(Login.SubmitCall(isGuestMode, f), reply));
            after.lastNav == s.lastNav || Resolve(after.lastNav.value) != NotFound
  {
    ContextTargetsResolve(s, Login.CallEvent(Login.SubmitCall(isGuestMode, f), reply));
  }
}
