/**
 * The console's session (authentication/AuthenticationWrapper.tsx): the signed
 * in user, whether the session has been initialised, and the access token kept
 * in browser storage. `jwtDecode` is a parameter: a partial function from a
 * token to the claims it carries, or the message it throws with.
 */
module Sessions {
  import opened Wrappers
  import opened Js

  /** The claims of an access token that the console reads. */
  datatype Me = Me(username: string, admin: bool)

  /** The storage key of the access token. authentication/Authentication.ts, which defines it, is not part of this model, so the text is a stand-in. */
  const ACCESS_TOKEN := "access_token"

  /** What a session shows: a full-screen spinner until initialised, then the children with the current user. */
  datatype View = Loading | Children(me: Option<Me>)

  /** `getItem(ACCESS_TOKEN)` used as a condition: present and non-empty. */
  function StoredToken(storage: map<string, string>): (token: Option<string>)
    ensures token.Some? <==> ACCESS_TOKEN in storage && storage[ACCESS_TOKEN] != ""
    ensures token.Some? ==> token.value == storage[ACCESS_TOKEN]
  {
    if ACCESS_TOKEN in storage && storage[ACCESS_TOKEN] != "" then Some(storage[ACCESS_TOKEN]) else None
  }

  /** The message refresh catches for a stored token: the verify call rejects, or a 200 carries a token that does not decode. */
  function VerifyError(token: string, verify: FetchOutcome<()>, decode: string -> Result<Me, string>): (message: Option<string>)
    ensures verify.Rejected? ==> message == Some(verify.message)
    ensures verify.Response? && verify.status != 200 ==> message == None
    ensures verify.Response? && verify.status == 200 ==> (message.Some? <==> decode(token).Failure?)
  {
    if verify.Rejected? then Some(verify.message)
    else if verify.status == 200 && decode(token).Failure? then Some(decode(token).error)
    else None
  }

  /** The user refresh settles on. */
  function RefreshedUser(security: bool, storage: map<string, string>, verify: FetchOutcome<()>,
                         decode: string -> Result<Me, string>): (user: Option<Me>)
    ensures !security ==> user == Some(Me("admin", true))
    ensures security && StoredToken(storage).None? ==> user == None
    ensures security && user.Some? ==>
      && StoredToken(storage).Some? && verify.Response? && verify.status == 200
      && decode(StoredToken(storage).value) == Ok(user.value)
  {
    if !security then Some(Me("admin", true))
    else match StoredToken(storage)
      case None => None
      case Some(token) =>
        if VerifyError(token, verify, decode).Some? then None
        else if verify.status == 200 then Some(decode(token).value)
        else None
  }

  class AuthenticationWrapper {
    /** `features.security`: whether the device enforces authentication. */
    const security: bool
    /** jwtDecode. */
    const decode: string -> Result<Me, string>
    /** Browser storage, key to value. */
    var storage: map<string, string>
    var user: Option<Me>
    var initialised: bool
    var notifications: seq<Notification>
    /** The location the history was last pushed to. */
    var location: string

    /** Mounting the wrapper: no user, not initialised; storage and location are whatever the browser holds. */
    constructor (security: bool, decode: string -> Result<Me, string>, storage: map<string, string>, location: string)
      ensures this.security == security && this.decode == decode && this.storage == storage && this.location == location
      ensures user == None && !initialised && notifications == []
    {
      this.security := security;
      this.decode := decode;
      this.storage := storage;
      this.location := location;
      user := None;
      initialised := false;
      notifications := [];
    }

    /** The wrapper's render: the spinner until initialised, then the children within the context. */
    function CurrentView(): (v: View)
      reads this
      ensures v.Children? <==> initialised
      ensures v.Children? ==> v.me == user
    {
      if initialised then Children(user) else Loading
    }

    /**
     * refresh, once the verify call (made only for a stored token) settles:
     * with security off the user is the built-in admin; otherwise the decoded
     * token when the verify call answered 200, else no user, with a
     * notification when the call rejected or the token did not decode. The
     * session is initialised afterwards in every case.
     */
    method Refresh(verify: FetchOutcome<()>)
      modifies this
      ensures user == RefreshedUser(security, storage, verify, decode) && initialised
      ensures security && StoredToken(storage).Some? && VerifyError(StoredToken(storage).value, verify, decode).Some? ==>
        notifications == old(notifications)
          + [Notification("Error verifying authorization: " + VerifyError(StoredToken(storage).value, verify, decode).value, Error)]
      ensures !(security && StoredToken(storage).Some? && VerifyError(StoredToken(storage).value, verify, decode).Some?) ==>
        notifications == old(notifications)
      ensures storage == old(storage) && location == old(location)
    {
      var refreshedUser: Option<Me>;
      if !security {
        refreshedUser := Some(Me("admin", true));
      } else {
        var accessToken := StoredToken(storage);
        if accessToken.Some? {
          var error := VerifyError(accessToken.value, verify, decode);
          if error.Some? {
            refreshedUser := None;
            notifications := notifications + [Notification("Error verifying authorization: " + error.value, Error)];
          } else {
            refreshedUser := if verify.status == 200 then Some(decode(accessToken.value).value) else None;
          }
        } else {
          refreshedUser := None;
        }
      }
      user := refreshedUser;
      initialised := true;
    }

    /**
     * signIn: the token is stored first, then decoded. A token that decodes
     * becomes the user, announced as "Logged in as <username>"; one that does
     * not leaves no user, initialises the session, stays stored, and is
     * reported to the caller as "Failed to parse JWT <message>".
     */
    method SignIn(accessToken: string) returns (r: Result<(), string>)
      modifies this
      ensures storage == old(storage)[ACCESS_TOKEN := accessToken] && location == old(location)
      ensures decode(accessToken).Ok? ==>
        && r.Ok? && user == Some(decode(accessToken).value) && initialised == old(initialised)
        && notifications == old(notifications) + [Notification("Logged in as " + decode(accessToken).value.username, Success)]
      ensures decode(accessToken).Failure? ==>
        && r == Failure("Failed to parse JWT " + decode(accessToken).error)
        && user == None && initialised && notifications == old(notifications)
    {
      storage := storage[ACCESS_TOKEN := accessToken];
      match decode(accessToken)
      case Ok(me) =>
        user := Some(me);
        notifications := notifications + [Notification("Logged in as " + me.username, Success)];
        r := Ok(());
      case Failure(message) =>
        user := None;
        initialised := true;
        r := Failure("Failed to parse JWT " + message);
    }

    /** signOut: the token is removed, no user, "You have signed out.", and the history goes to "/". */
    method SignOut()
      modifies this
      ensures storage == old(storage) - {ACCESS_TOKEN} && user == None && location == "/"
      ensures initialised == old(initialised)
      ensures notifications == old(notifications) + [Notification("You have signed out.", Success)]
    {
      storage := storage - {ACCESS_TOKEN};
      user := None;
      notifications := notifications + [Notification("You have signed out.", Success)];
      location := "/";
    }
  }

  // ---------------------------------------------------------------- scenarios

  /** With security off, refresh signs in the built-in admin whatever storage and the network hold. */
  method SecurityOffIsAdmin(decode: string -> Result<Me, string>, storage: map<string, string>, verify: FetchOutcome<()>)
    returns (user: Option<Me>, view: View)
    ensures user == Some(Me("admin", true)) && view == Children(user)
  {
    var w := new AuthenticationWrapper(false, decode, storage, "/");
    w.Refresh(verify);
    user, view := w.user, w.CurrentView();
  }

  /** Before the first refresh only the spinner shows; with no stored token refresh settles on no user, quietly. */
  method NoTokenNoUser(decode: string -> Result<Me, string>, storage: map<string, string>, verify: FetchOutcome<()>)
    returns (before: View, after: View, notes: seq<Notification>)
    requires ACCESS_TOKEN !in storage || storage[ACCESS_TOKEN] == ""
    ensures before == Loading && after == Children(None) && notes == []
  {
    var w := new AuthenticationWrapper(true, decode, storage, "/");
    before := w.CurrentView();
    w.Refresh(verify);
    after, notes := w.CurrentView(), w.notifications;
  }

  /** Signing in with a good token and refreshing with a verify answer of 200 keeps that user. */
  method SignInThenRefresh(decode: string -> Result<Me, string>, storage: map<string, string>, token: string, me: Me)
    returns (user: Option<Me>, stored: Option<string>)
    requires token != "" && decode(token) == Ok(me)
    ensures user == Some(me) && stored == Some(token)
  {
    var w := new AuthenticationWrapper(true, decode, storage, "/");
    var r := w.SignIn(token);
    w.Refresh(Response(200, Ok(())));
    user, stored := w.user, StoredToken(w.storage);
  }

  /**
   * A token that does not decode stays stored after signIn fails, so a later
   * refresh decodes it again, fails again and reports it.
   */
  method BadTokenStaysStored(decode: string -> Result<Me, string>, storage: map<string, string>, token: string)
    returns (r: Result<(), string>, user: Option<Me>, stored: Option<string>, notes: seq<Notification>)
    requires token != "" && decode(token).Failure?
    ensures r == Failure("Failed to parse JWT " + decode(token).error)
    ensures user == None && stored == Some(token)
    ensures notes == [Notification("Error verifying authorization: " + decode(token).error, Error)]
  {
    var w := new AuthenticationWrapper(true, decode, storage, "/");
    r := w.SignIn(token);
    w.Refresh(Response(200, Ok(())));
    user, stored, notes := w.user, StoredToken(w.storage), w.notifications;
  }

  /** Signing out twice leaves the same session as signing out once; only the notification repeats. */
  method SignOutTwice(decode: string -> Result<Me, string>, storage: map<string, string>, token: string)
    returns (once: (map<string, string>, Option<Me>, string), twice: (map<string, string>, Option<Me>, string), stored: Option<string>)
    ensures once == twice && stored == None
  {
    var w := new AuthenticationWrapper(true, decode, storage, "/settings");
    var r := w.SignIn(token);
    w.SignOut();
    once := (w.storage, w.user, w.location);
    ghost var signedOut := w.storage;
    w.SignOut();
    assert w.storage == signedOut by {
      assert signedOut - {ACCESS_TOKEN} == signedOut;
    }
    twice := (w.storage, w.user, w.location);
    stored := StoredToken(w.storage);
  }
}

/** The sign-in page's submit (SignIn.tsx): classify the response and hand a token to the session. */
module SignInPage {
  import opened Wrappers
  import opened Js
  import opened Sessions

  class SignInForm {
    var processing: bool
    var notifications: seq<Notification>

    constructor ()
      ensures !processing && notifications == []
    {
      processing := false;
      notifications := [];
    }

    /**
     * onSubmit, once the POST settles: a 200 hands `access_token` to the
     * session's signIn; a 401 is "Invalid credentials."; any other status is
     * "Invalid status code: N". Every failure, signIn's own included, is shown
     * as a warning with the error's message and ends processing; a successful
     * sign-in leaves processing on (the page is left).
     */
    method OnSubmit(session: AuthenticationWrapper, outcome: FetchOutcome<string>)
      modifies this, session
      ensures session.storage == old(session.storage)[ACCESS_TOKEN := outcome.body.value]
           <== outcome.Response? && outcome.status == 200 && outcome.body.Ok?
      ensures !(outcome.Response? && outcome.status == 200 && outcome.body.Ok?) ==>
        && session.storage == old(session.storage) && session.user == old(session.user)
        && session.initialised == old(session.initialised) && session.notifications == old(session.notifications)
      ensures SubmitFailure(outcome, session.decode).None? ==> processing && notifications == old(notifications)
      ensures SubmitFailure(outcome, session.decode).Some? ==>
        && !processing
        && notifications == old(notifications) + [Notification(SubmitFailure(outcome, session.decode).value, Warning)]
      ensures outcome.Response? && outcome.status == 200 && outcome.body.Ok? && session.decode(outcome.body.value).Ok? ==>
        && session.user == Some(session.decode(outcome.body.value).value)
        && session.initialised == old(session.initialised)
        && session.notifications == old(session.notifications)
             + [Notification("Logged in as " + session.decode(outcome.body.value).value.username, Success)]
      ensures outcome.Response? && outcome.status == 200 && outcome.body.Ok? && session.decode(outcome.body.value).Failure? ==>
        session.user == None && session.initialised && session.notifications == old(session.notifications)
      ensures session.location == old(session.location)
    {
      processing := true;
      var failure: Option<string> := None;
      if outcome.Rejected? {
        failure := Some(outcome.message);
      } else if outcome.status == 200 {
        if outcome.body.Failure? {
          failure := Some(outcome.body.error);
        } else {
          var r := session.SignIn(outcome.body.value);
          if r.Failure? {
            failure := Some(r.error);
          }
        }
      } else if outcome.status == 401 {
        failure := Some("Invalid credentials.");
      } else {
        failure := Some(InvalidStatusCode(outcome.status));
      }
      if failure.Some? {
        notifications := notifications + [Notification(failure.value, Warning)];
        processing := false;
      }
    }
  }

  /** The message a submit fails with, or None when the session accepted the token. */
  function SubmitFailure(outcome: FetchOutcome<string>, decode: string -> Result<Me, string>): (message: Option<string>)
    ensures outcome.Response? && outcome.status == 401 ==> message == Some("Invalid credentials.")
    ensures outcome.Response? && outcome.status != 200 && outcome.status != 401 ==> message == Some(InvalidStatusCode(outcome.status))
    ensures outcome.Response? && outcome.status == 200 && outcome.body.Ok? ==>
      (message.None? <==> decode(outcome.body.value).Ok?)
  {
    match outcome
    case Rejected(m) => Some(m)
    case Response(status, body) =>
      if status == 200 then
        if body.Failure? then Some(body.error)
        else if decode(body.value).Failure? then Some("Failed to parse JWT " + decode(body.value).error)
        else None
      else if status == 401 then Some("Invalid credentials.")
      else Some(InvalidStatusCode(status))
  }

  /** Wrong credentials: a warning, processing ends, and the session is not touched. */
  method WrongCredentials(decode: string -> Result<Me, string>, storage: map<string, string>)
    returns (processing: bool, notes: seq<Notification>, user: Option<Me>, stored: map<string, string>)
    ensures !processing && notes == [Notification("Invalid credentials.", Warning)]
    ensures user == None && stored == storage
  {
    var session := new AuthenticationWrapper(true, decode, storage, "/");
    var form := new SignInForm();
    form.OnSubmit(session, Response(401, Failure("")));
    processing, notes, user, stored := form.processing, form.notifications, session.user, session.storage;
  }

  /** A good token signs the user in and leaves the form processing. */
  method GoodCredentials(decode: string -> Result<Me, string>, storage: map<string, string>, token: string, me: Me)
    returns (processing: bool, notes: seq<Notification>, user: Option<Me>)
    requires decode(token) == Ok(me)
    ensures processing && notes == [] && user == Some(me)
  {
    var session := new AuthenticationWrapper(true, decode, storage, "/");
    var form := new SignInForm();
    form.OnSubmit(session, Response(200, Ok(token)));
    processing, notes, user := form.processing, form.notifications, session.user;
  }
}

/** The two route gates (AuthenticatedRoute.tsx, UnauthenticatedRoute.tsx). */
module RouteGates {
  import opened Js
  import opened Wrappers
  import opened Sessions

  /** What a gate's render returns. */
  datatype Element =
    | Component
    | ComponentWithin(context: Me)
    | RedirectTo(path: string)

  /** An element and the effects that produced it: a stored login redirect and notifications. */
  datatype Gate = Gate(element: Element, storedRedirect: Option<string>, notes: seq<Notification>)

  predicate Renders(e: Element)
  {
    e.Component? || e.ComponentWithin?
  }

  /**
   * AuthenticatedRoute's renderComponent: a signed-in user sees the component
   * within the authenticated context; anyone else has the location stored for
   * after sign-in, is told "Please sign in to continue." and is redirected to "/".
   */
  function AuthenticatedGate(me: Option<Me>, location: string): (g: Gate)
    ensures me.Some? ==> g == Gate(ComponentWithin(me.value), None, [])
    ensures me.None? ==> g == Gate(RedirectTo("/"), Some(location), [Notification("Please sign in to continue.", Info)])
  {
    if me.Some? then Gate(ComponentWithin(me.value), None, [])
    else Gate(RedirectTo("/"), Some(location), [Notification("Please sign in to continue.", Info)])
  }

  /** UnauthenticatedRoute's renderComponent: a signed-in user is sent to the login redirect, anyone else sees the component. */
  function UnauthenticatedGate(me: Option<Me>, loginRedirect: string): (e: Element)
    ensures me.Some? ==> e == RedirectTo(loginRedirect)
    ensures me.None? ==> e == Component
  {
    if me.Some? then RedirectTo(loginRedirect) else Component
  }

  /** For every session exactly one of the two gates renders its component. */
  lemma ExactlyOneGateRenders(me: Option<Me>, location: string, loginRedirect: string)
    ensures Renders(AuthenticatedGate(me, location).element) != Renders(UnauthenticatedGate(me, loginRedirect))
    ensures Renders(AuthenticatedGate(me, location).element) <==> me.Some?
  {
  }

  /** Both decisions depend only on whether a user is signed in, not on who it is. */
  lemma GatesDependOnPresenceOnly(me1: Option<Me>, me2: Option<Me>, location: string, loginRedirect: string)
    requires me1.Some? == me2.Some?
    ensures Renders(AuthenticatedGate(me1, location).element) == Renders(AuthenticatedGate(me2, location).element)
    ensures AuthenticatedGate(me1, location).storedRedirect == AuthenticatedGate(me2, location).storedRedirect
    ensures AuthenticatedGate(me1, location).notes == AuthenticatedGate(me2, location).notes
    ensures UnauthenticatedGate(me1, loginRedirect) == UnauthenticatedGate(me2, loginRedirect)
  {
  }
}
