/**
 * The authentication context: the shape of the current user built from the
 * auth user and the profile row, the reaction to auth events (guarded by the
 * `isMounted` flag of the provider's effect), the error mapping of `signIn`, and
 * `signOut`. The auth service's answers are parameters; every handler is one
 * atomic step.
 */
module Auth {
  import opened Js

  /** The user of the auth service (`id`, `email`). */
  datatype SessionUser = SessionUser(id: string, email: Option<string>)

  /** A row of `profiles` (`full_name, role`). */
  datatype Profile = Profile(fullName: Option<string>, role: Option<string>)

  /** `AuthUser` */
  datatype AuthUser = AuthUser(id: string, email: string, fullName: Option<string>, role: Option<string>)

  /** The events `onAuthStateChange` delivers. */
  datatype AuthEvent = SignedOut | TokenRefreshed | UserUpdated | SignedIn | OtherEvent(name: string)

  const InvalidCredentials := "Invalid login credentials"
  const EmailNotConfirmed := "Email not confirmed"
  const WrongCredentialsMessage := "Email o contraseña incorrectos"
  const NotConfirmedMessage := "Email no confirmado. Revisa tu bandeja de entrada."
  const AuthErrorPrefix := "Error de autenticación: "

  /**
   * The result of `loadCurrentUser`. `profile` is the profile row, or None when
   * the profile query failed (the error is only logged) or found nothing.
   */
  function ShapeUser(session: Option<SessionUser>, profile: Option<Profile>): (u: Option<AuthUser>)
    ensures session.None? <==> u.None?
    ensures u.Some? ==> u.value.id == session.value.id && u.value.email == session.value.email.OrElse("")
    ensures u.Some? && profile.Some? ==> u.value.fullName == profile.value.fullName && u.value.role == profile.value.role
    ensures u.Some? && profile.None? ==> u.value.fullName == None && u.value.role == None
  {
    match session
    case None => None
    case Some(s) =>
      var p := profile.OrElse(Profile(None, None));
      Some(AuthUser(s.id, s.email.OrElse(""), p.fullName, p.role))
  }

  /**
   * A failed profile query does not sign the user out: the user is still there,
   * with no name and no role; an auth user without email gets `''`.
   */
  lemma ProfileErrorKeepsUser(session: SessionUser)
    ensures ShapeUser(Some(session), None) == Some(AuthUser(session.id, session.email.OrElse(""), None, None))
    ensures session.email.None? ==> ShapeUser(Some(session), None).value.email == ""
  {
  }

  /**
   * The message `signIn` throws for an auth error message `msg`: the first
   * matching substring decides.
   */
  function SignInMessage(msg: string): (r: string)
    ensures Includes(msg, InvalidCredentials) ==> r == WrongCredentialsMessage
    ensures !Includes(msg, InvalidCredentials) && Includes(msg, EmailNotConfirmed) ==> r == NotConfirmedMessage
    ensures !Includes(msg, InvalidCredentials) && !Includes(msg, EmailNotConfirmed) ==> r == AuthErrorPrefix + msg
  {
    if Includes(msg, InvalidCredentials) then WrongCredentialsMessage
    else if Includes(msg, EmailNotConfirmed) then NotConfirmedMessage
    else AuthErrorPrefix + msg
  }

  /**
   * Every message `signIn` throws is one of its two fixed messages or starts with
   * the authentication prefix, and the service's own message is kept only in the
   * last case.
   */
  lemma SignInMessageShapes(msg: string)
    ensures var r := SignInMessage(msg);
      r == WrongCredentialsMessage || r == NotConfirmedMessage
      || (|r| == |AuthErrorPrefix| + |msg| && r[..|AuthErrorPrefix|] == AuthErrorPrefix && r[|AuthErrorPrefix|..] == msg)
  {
  }

  /** A message with both substrings is reported as wrong credentials: the order of the tests matters. */
  lemma CredentialsCheckedFirst(msg: string)
    requires Includes(msg, InvalidCredentials) && Includes(msg, EmailNotConfirmed)
    ensures SignInMessage(msg) == WrongCredentialsMessage
  {
  }

  /** The provider's state, with the `isMounted` flag of its effect. */
  class AuthProvider {
    var user: Option<AuthUser>
    var loading: bool
    var isMounted: bool

    /** `useState(null)`, `useState(true)`, and the effect's `let isMounted = true`. */
    constructor()
      ensures user == None && loading && isMounted
    {
      user := None;
      loading := true;
      isMounted := true;
    }

    /** The start of `init`: `setLoading(true)`, before the first `await`. */
    method InitBegin()
      modifies this
      ensures loading && user == old(user) && isMounted == old(isMounted)
    {
      loading := true;
    }

    /** The end of `init` with the loaded user: applied only while mounted. */
    method InitComplete(loaded: Option<AuthUser>)
      modifies this
      ensures old(isMounted) ==> user == loaded && !loading
      ensures !old(isMounted) ==> user == old(user) && loading == old(loading)
      ensures isMounted == old(isMounted)
    {
      if isMounted {
        user := loaded;
        loading := false;
      }
    }

    /**
     * The `onAuthStateChange` callback for `event`; `reloaded` is what
     * `loadCurrentUser` returns when the handler calls it.
     */
    method OnAuthStateChange(event: AuthEvent, reloaded: Option<AuthUser>)
      modifies this
      ensures old(isMounted) && event == SignedOut ==> user == None && !loading
      ensures old(isMounted) && (event == TokenRefreshed || event == UserUpdated) ==> user == reloaded && !loading
      ensures event == SignedIn || event.OtherEvent? ==> user == old(user) && loading == old(loading)
      ensures !old(isMounted) ==> user == old(user) && loading == old(loading)
      ensures isMounted == old(isMounted)
    {
      match event {
        case SignedOut =>
          if isMounted {
            user := None;
            loading := false;
          }
        case TokenRefreshed =>
          if isMounted {
            user := reloaded;
            loading := false;
          }
        case UserUpdated =>
          if isMounted {
            user := reloaded;
            loading := false;
          }
        case SignedIn =>
        case OtherEvent(_) =>
      }
    }

    /** The effect's cleanup: `isMounted = false` (and the subscription ends). */
    method Unmount()
      modifies this
      ensures !isMounted && user == old(user) && loading == old(loading)
    {
      isMounted := false;
    }

    /**
     * `signIn`. `authError` is the message of the service's error, if any, and
     * `loaded` what `loadCurrentUser` returns afterwards. Returns the message of the
     * error thrown, if any; on error the user is unchanged.
     */
    method SignIn(authError: Option<string>, loaded: Option<AuthUser>) returns (thrown: Option<string>)
      modifies this
      ensures authError.Some? ==> thrown == Some(SignInMessage(authError.value)) && user == old(user)
      ensures authError.None? ==> thrown == None && user == loaded
      ensures loading == old(loading) && isMounted == old(isMounted)
    {
      if authError.Some? {
        thrown := Some(SignInMessage(authError.value));
        return;
      }
      thrown := None;
      user := loaded;
    }

    /** `signOut`: an error is rethrown with the user unchanged; otherwise the user is cleared. */
    method SignOut(error: Option<Thrown>) returns (rethrown: Option<Thrown>)
      modifies this
      ensures error.Some? ==> rethrown == error && user == old(user)
      ensures error.None? ==> rethrown == None && user == None
      ensures loading == old(loading) && isMounted == old(isMounted)
    {
      if error.Some? {
        rethrown := error;
        return;
      }
      rethrown := None;
      user := None;
    }
  }
}
