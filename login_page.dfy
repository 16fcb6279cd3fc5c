/**
 * The login page: a form that switches between email login and room
 * login, dispatches its submission to the matching context operation and
 * shows one generic error message when that operation throws.
 */
module Login {
  import opened Wrappers
  import opened AuthContext

  /** The four text inputs the form keeps. */
  datatype Fields = Fields(email: string, password: string, roomNumber: string, fullName: string)

  /** The one context operation a submission calls, with its arguments. */
  datatype Call = LoginCall(email: string, password: string) | GuestLoginCall(roomNumber: string, fullName: string)

  const InvalidCredentials := "Invalid credentials"

  /** The operation a submission makes: guest login in room mode, login otherwise. */
  function SubmitCall(isGuestMode: bool, f: Fields): (c: Call)
    ensures c.GuestLoginCall? <==> isGuestMode
    ensures c.GuestLoginCall? ==> c.roomNumber == f.roomNumber && c.fullName == f.fullName
    ensures c.LoginCall? ==> c.email == f.email && c.password == f.password
  {
    if isGuestMode then GuestLoginCall(f.roomNumber, f.fullName) else LoginCall(f.email, f.password)
  }

  /** The context transition a call makes, given the server's answer. */
  function CallEvent(c: Call, reply: AuthReply): Event
  {
    match c
    case LoginCall(_, _) => Login(reply)
    case GuestLoginCall(_, _) => GuestLogin(reply)
  }

  /** The labels of the inputs shown in each mode. */
  function VisibleInputs(isGuestMode: bool): (r: seq<string>)
    ensures |r| == 2
    ensures isGuestMode <==> "Room Number" in r
    ensures isGuestMode <==> "Full Name" in r
    ensures !isGuestMode <==> "Email" in r
    ensures !isGuestMode <==> "Password" in r
  {
    if !isGuestMode then ["Email", "Password"] else ["Room Number", "Full Name"]
  }

  /** The error paragraph, rendered only for a non-empty message. */
  function ErrorBanner(error: string): (r: Option<string>)
    ensures r.Some? <==> error != ""
    ensures r.Some? ==> r.value == error
  {
    if error != "" then Some(error) else None
  }

  /** A submission in either mode keeps the session valid, changes nothing on failure and navigates by mode on success. */
  lemma SubmitKeepsSessionValid(s: Session, isGuestMode: bool, f: Fields, reply: AuthReply)
    requires ValidSession(s)
    ensures ValidSession(Step(s, CallEvent(SubmitCall(isGuestMode, f), reply)))
    ensures reply.Failed? ==> Step(s, CallEvent(SubmitCall(isGuestMode, f), reply)) == s
    ensures reply.Issued? ==>
      Step(s, CallEvent(SubmitCall(isGuestMode, f), reply)).lastNav
      == Some(if isGuestMode then "/guest-portal" else LoginTarget(reply.user.role))
  {
    StepKeepsValid(s, CallEvent(SubmitCall(isGuestMode, f), reply));
  }

  class LoginPage {
    var isGuestMode: bool
    var email: string
    var password: string
    var roomNumber: string
    var fullName: string
    var error: string
    /** The context obtained through the hook. */
    const auth: AuthProvider

    function Inputs(): Fields
      reads this
    {
      Fields(email, password, roomNumber, fullName)
    }

    /** First render: email mode, empty inputs, no error. */
    constructor(auth: AuthProvider)
      ensures !isGuestMode && Inputs() == Fields("", "", "", "") && error == ""
      ensures this.auth == auth
    {
      isGuestMode := false;
      email, password, roomNumber, fullName := "", "", "", "";
      error := "";
      this.auth := auth;
    }

    /** The mode button: flips the mode and keeps every input and the error. */
    method ToggleMode()
      modifies this
      ensures isGuestMode == !old(isGuestMode)
      ensures Inputs() == old(Inputs()) && error == old(error)
    {
      isGuestMode := !isGuestMode;
    }

    /** The Email input's change handler. */
    method SetEmail(v: string)
      modifies this
      ensures Inputs() == old(Inputs()).(email := v)
      ensures isGuestMode == old(isGuestMode) && error == old(error)
    {
      email := v;
    }

    /** The Password input's change handler. */
    method SetPassword(v: string)
      modifies this
      ensures Inputs() == old(Inputs()).(password := v)
      ensures isGuestMode == old(isGuestMode) && error == old(error)
    {
      password := v;
    }

    /** The Room Number input's change handler. */
    method SetRoomNumber(v: string)
      modifies this
      ensures Inputs() == old(Inputs()).(roomNumber := v)
      ensures isGuestMode == old(isGuestMode) && error == old(error)
    {
      roomNumber := v;
    }

    /** The Full Name input's change handler. */
    method SetFullName(v: string)
      modifies this
      ensures Inputs() == old(Inputs()).(fullName := v)
      ensures isGuestMode == old(isGuestMode) && error == old(error)
    {
      fullName := v;
    }

    /**
     * Submission: exactly one of guest login and login is called, and its
     * failure, whatever the cause, sets the generic message; success leaves
     * the previous message in place.
     */
    method HandleSubmit(reply: AuthReply) returns (call: Call)
      modifies this, auth, auth.nav
      ensures call == SubmitCall(old(isGuestMode), old(Inputs()))
      ensures auth.Snapshot() == Step(old(auth.Snapshot()), CallEvent(call, reply))
      ensures error == if reply.Failed? then InvalidCredentials else old(error)
      ensures isGuestMode == old(isGuestMode) && Inputs() == old(Inputs())
    {
      var outcome: Settled;
      if isGuestMode {
        call := GuestLoginCall(roomNumber, fullName);
        outcome := auth.GuestLogin(roomNumber, fullName, reply);
      } else {
        call := LoginCall(email, password);
        outcome := auth.Login(email, password, reply);
      }
      if outcome == Thrown {
        error := InvalidCredentials;
      }
    }
  }
}
