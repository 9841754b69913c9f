/**
 * The login page: where it returns after signing in, and which message it shows
 * when `signIn` throws. `URLSearchParams` is taken as the value it yields for
 * `returnTo`.
 */
module Login {
  import opened Js
  import Auth

  const DefaultReturn := "/dashboard"
  const GenericFailure := "No se pudo iniciar sesión."
  const WrongCredentialsKey := "Email o contraseña incorrectos"
  const NotConfirmedKey := "Email no confirmado"
  const ProfileKey := "Error cargando perfil"
  const WrongCredentialsShown := "❌ Email o contraseña incorrectos. Verifica tus datos."
  const NotConfirmedShown := "📧 Email no confirmado. Revisa tu bandeja de entrada."
  const ProfileShown := "👤 Error cargando el perfil de usuario. Contacta al administrador."

  /** A call of `navigate`. */
  datatype Navigation = Navigation(target: string, replace: bool)

  /** `searchParams.get('returnTo') || '/dashboard'` */
  function ReturnTo(param: Option<string>): (r: string)
    ensures Truthy(param) ==> r == param.value
    ensures !Truthy(param) ==> r == DefaultReturn
    ensures r != ""
  {
    if Truthy(param) then param.value else DefaultReturn
  }

  /**
   * The message shown for a thrown value: a value that is not an `Error` gives the
   * generic message; an `Error` is matched against the three keys in order and
   * otherwise shows its own message.
   */
  function LoginErrorMessage(err: Thrown): (r: string)
    ensures err.NonError? ==> r == GenericFailure
    ensures err.ErrorInstance? && Includes(err.message, WrongCredentialsKey) ==> r == WrongCredentialsShown
    ensures (err.ErrorInstance? && !Includes(err.message, WrongCredentialsKey) && Includes(err.message, NotConfirmedKey))
      ==> r == NotConfirmedShown
    ensures (err.ErrorInstance? && !Includes(err.message, WrongCredentialsKey) && !Includes(err.message, NotConfirmedKey)
             && Includes(err.message, ProfileKey)) ==> r == ProfileShown
    ensures (err.ErrorInstance? && !Includes(err.message, WrongCredentialsKey) && !Includes(err.message, NotConfirmedKey)
             && !Includes(err.message, ProfileKey)) ==> r == err.message
  {
    match err
    case NonError => GenericFailure
    case ErrorInstance(m) =>
      if Includes(m, WrongCredentialsKey) then WrongCredentialsShown
      else if Includes(m, NotConfirmedKey) then NotConfirmedShown
      else if Includes(m, ProfileKey) then ProfileShown
      else m
  }

  /** The message shown is never empty unless the thrown `Error` itself had an empty message. */
  lemma ShownMessageNonEmpty(err: Thrown)
    requires err.ErrorInstance? ==> err.message != ""
    ensures LoginErrorMessage(err) != ""
  {
  }

  /**
   * What the page shows for the errors `signIn` of the auth context throws:
   * rejected credentials and an unconfirmed email each reach their own message.
   */
  lemma SignInErrorsShown(msg: string)
    ensures Includes(msg, Auth.InvalidCredentials) ==>
      LoginErrorMessage(ErrorInstance(Auth.SignInMessage(msg))) == WrongCredentialsShown
    ensures !Includes(msg, Auth.InvalidCredentials) && Includes(msg, Auth.EmailNotConfirmed) ==>
      LoginErrorMessage(ErrorInstance(Auth.SignInMessage(msg))) == NotConfirmedShown
  {
    if Includes(msg, Auth.InvalidCredentials) {
      WrongCredentialsMatches();
    } else if Includes(msg, Auth.EmailNotConfirmed) {
      NotConfirmedMatches(Auth.NotConfirmedMessage, WrongCredentialsKey, NotConfirmedKey);
    }
  }

  /** The message for rejected credentials contains the first key. */
  lemma WrongCredentialsMatches()
    ensures Includes(Auth.WrongCredentialsMessage, WrongCredentialsKey)
  {
    IncludesAt(Auth.WrongCredentialsMessage, WrongCredentialsKey, 0);
  }

  /** The message for an unconfirmed email lacks the first key (it has no `ñ`) and contains the second. */
  lemma NotConfirmedMatches(s: string, t: string, u: string)
    requires s == Auth.NotConfirmedMessage && t == WrongCredentialsKey && u == NotConfirmedKey
    ensures !Includes(s, t) && Includes(s, u)
  {
    NoEnye(s);
    HasEnye(t);
    MissingCharExcludes(s, t, 'ñ');
    StartsWithKey(s, u);
    IncludesAt(s, u, 0);
  }

  lemma NoEnye(s: string)
    requires s == Auth.NotConfirmedMessage
    ensures 'ñ' !in s
  {
    var p1, p2, p3, p4 := "Email no con", "firmado. Rev", "isa tu bande", "ja de entrada.";
    assert s == p1 + p2 + p3 + p4;
    assert 'ñ' !in p1 && 'ñ' !in p2 && 'ñ' !in p3 && 'ñ' !in p4;
  }

  lemma HasEnye(t: string)
    requires t == WrongCredentialsKey
    ensures 'ñ' in t
  {
    assert t[16] == 'ñ';
  }

  lemma StartsWithKey(s: string, u: string)
    requires s == Auth.NotConfirmedMessage && u == NotConfirmedKey
    ensures |u| <= |s| && s[0..|u|] == u
  {
  }

  class LoginPage {
    var email: string
    var password: string
    var loading: bool
    var error: Option<string>

    constructor()
      ensures email == "" && password == "" && !loading && error == None
    {
      email := "";
      password := "";
      loading := false;
      error := None;
    }

    /**
     * `handleSubmit`, with `returnToParam` the `returnTo` query value and
     * `signInError` what `signIn` threw, if anything. A successful sign-in
     * navigates to the return path with replace; a failure shows its message.
     */
    method HandleSubmit(returnToParam: Option<string>, signInError: Option<Thrown>) returns (navigation: Option<Navigation>)
      modifies this
      ensures !loading
      ensures signInError.None? ==> navigation == Some(Navigation(ReturnTo(returnToParam), true)) && error == None
      ensures signInError.Some? ==> navigation == None && error == Some(LoginErrorMessage(signInError.value))
      ensures email == old(email) && password == old(password)
    {
      error := None;
      loading := true;
      if signInError.None? {
        navigation := Some(Navigation(ReturnTo(returnToParam), true));
      } else {
        navigation := None;
        error := Some(LoginErrorMessage(signInError.value));
      }
      loading := false;
    }
  }
}
