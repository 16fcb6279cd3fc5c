/**
 * The landing page's decisions: where the redirect effect sends an
 * authenticated visitor, where "Book Now" goes, which links the desktop
 * and mobile navigation show, and the mobile menu toggle.
 */
module Landing {
  import opened Wrappers
  import opened AuthContext

  /** What a navigation button does when pressed. */
  datatype Action = LogoutPressed | StartBookingPressed | MenuTogglePressed

  /** One entry of a navigation bar: a plain link or a button. */
  datatype NavItem = Anchor(text: string, href: string) | Button(text: string, onClick: Action)

  /** `user?.role === r`: false when there is no user. */
  predicate HasRole(user: Option<User>, r: Role)
  {
    user.Some? && user.value.role == r
  }

  /** The redirect effect's target, or None when it does not navigate. */
  function RedirectTarget(isAuthenticated: bool, user: Option<User>): (r: Option<string>)
    ensures r == Some("/guest-portal") <==> isAuthenticated && HasRole(user, Guest)
    ensures r == Some("/operator-dashboard") <==> isAuthenticated && HasRole(user, Operator)
    ensures r.None? <==> !isAuthenticated || user.None?
  {
    if isAuthenticated then
      if HasRole(user, Guest) then Some("/guest-portal")
      else if HasRole(user, Operator) then Some("/operator-dashboard")
      else None
    else None
  }

  /** The target of "Book Now": /book for a signed-in guest, /signup for everyone else. */
  function StartBookingTarget(isAuthenticated: bool, user: Option<User>): (r: string)
    ensures r == "/book" <==> isAuthenticated && HasRole(user, Guest)
    ensures r != "/book" ==> r == "/signup"
  {
    if isAuthenticated && HasRole(user, Guest) then "/book" else "/signup"
  }

  /** The links that depend on the session. */
  function SessionLinks(isAuthenticated: bool, user: Option<User>): seq<NavItem>
  {
    if !isAuthenticated then [Anchor("Login", "/login"), Anchor("Sign Up", "/signup")]
    else if HasRole(user, Guest) then [Anchor("Guest Portal", "/guest-portal"), Button("Logout", LogoutPressed)]
    else []
  }

  /** The desktop navigation bar. */
  function DesktopNav(isAuthenticated: bool, user: Option<User>): (r: seq<NavItem>)
    ensures Anchor("Login", "/login") in r <==> !isAuthenticated
    ensures Anchor("Sign Up", "/signup") in r <==> !isAuthenticated
    ensures Anchor("Guest Portal", "/guest-portal") in r <==> isAuthenticated && HasRole(user, Guest)
    ensures Button("Logout", LogoutPressed) in r <==> isAuthenticated && HasRole(user, Guest)
    ensures |r| >= 4 && r[..2] == [Anchor("Home", "/"), Anchor("Book a Room", "/book")]
    ensures r[|r| - 2..] == [Anchor("Contact", "/contact"), Button("Book Now", StartBookingPressed)]
  {
    [Anchor("Home", "/"), Anchor("Book a Room", "/book")]
    + SessionLinks(isAuthenticated, user)
    + [Anchor("Contact", "/contact"), Button("Book Now", StartBookingPressed)]
  }

  /** The mobile dropdown, written out on its own as the page does; absent while the menu is closed. */
  function MobileMenu(menuOpen: bool, isAuthenticated: bool, user: Option<User>): (r: Option<seq<NavItem>>)
    ensures r.Some? <==> menuOpen
    ensures menuOpen ==> r.value == DesktopNav(isAuthenticated, user)
  {
    if !menuOpen then None
    else
      var middle :=
        if !isAuthenticated then [Anchor("Login", "/login"), Anchor("Sign Up", "/signup")]
        else if user.Some? && user.value.role == Guest then [Anchor("Guest Portal", "/guest-portal"), Button("Logout", LogoutPressed)]
        else [];
      Some([Anchor("Home", "/"), Anchor("Book a Room", "/book")] + middle
           + [Anchor("Contact", "/contact"), Button("Book Now", StartBookingPressed)])
  }

  /** On a valid session, the redirect goes exactly where a login for that role would have gone. */
  lemma RedirectAgreesWithLogin(s: Session)
    requires ValidSession(s)
    ensures s.isAuthenticated ==> RedirectTarget(s.isAuthenticated, s.user) == Some(LoginTarget(s.user.value.role))
    ensures !s.isAuthenticated ==> RedirectTarget(s.isAuthenticated, s.user).None?
  {
  }

  /** A signed-in operator sees neither the sign-in links nor the guest links. */
  lemma OperatorSeesNoSessionLinks(user: User)
    requires user.role == Operator
    ensures DesktopNav(true, Some(user)) ==
      [Anchor("Home", "/"), Anchor("Book a Room", "/book"), Anchor("Contact", "/contact"), Button("Book Now", StartBookingPressed)]
    ensures StartBookingTarget(true, Some(user)) == "/signup"
  {
  }

  /** The page's own state; the context it reads is the provider's. */
  class LandingPage {
    var menuOpen: bool
    const auth: AuthProvider

    constructor(auth: AuthProvider)
      ensures !menuOpen && this.auth == auth
    {
      menuOpen := false;
      this.auth := auth;
    }

    method ToggleMenu()
      modifies this
      ensures menuOpen == !old(menuOpen)
    {
      menuOpen := !menuOpen;
    }

    /** The redirect effect, run after a render in which the session changed. */
    method RedirectEffect()
      modifies auth.nav
      ensures var t := RedirectTarget(auth.isAuthenticated, auth.user);
              auth.nav.lastNav == if t.Some? then t else old(auth.nav.lastNav)
    {
      var t := RedirectTarget(auth.isAuthenticated, auth.user);
      if t.Some? {
        auth.nav.Navigate(t.value);
      }
    }

    method HandleStartBooking()
      modifies auth.nav
      ensures auth.nav.lastNav == Some(StartBookingTarget(auth.isAuthenticated, auth.user))
    {
      if auth.isAuthenticated && HasRole(auth.user, Guest) {
        auth.nav.Navigate("/book");
      } else {
        auth.nav.Navigate("/signup");
      }
    }

    /** A press on one of the page's buttons; the Logout buttons call the context's logout. */
    method Press(action: Action)
      modifies this, auth, auth.nav
      ensures action.LogoutPressed? ==>
        auth.Snapshot() == Step(old(auth.Snapshot()), Logout) && menuOpen == old(menuOpen)
      ensures action.StartBookingPressed? ==>
        auth.Snapshot() == old(auth.Snapshot()).(lastNav := Some(StartBookingTarget(old(auth.isAuthenticated), old(auth.user))))
        && menuOpen == old(menuOpen)
      ensures action.MenuTogglePressed? ==>
        auth.Snapshot() == old(auth.Snapshot()) && menuOpen == !old(menuOpen)
    {
      match action
      case LogoutPressed => auth.Logout();
      case StartBookingPressed => HandleStartBooking();
      case MenuTogglePressed => ToggleMenu();
    }
  }

  /** Toggling the menu twice restores it. */
  method ToggleTwiceRestores(page: LandingPage)
    modifies page
    ensures page.menuOpen == old(page.menuOpen)
  {
    page.ToggleMenu();
    page.ToggleMenu();
  }
}
