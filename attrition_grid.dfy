/** The attrition grid of the client demo: a locked preview with its own
    corporate login modal. */
module AttritionGrid {
  import opened Wrappers
  import opened Text
  import opened Json
  import opened Storage
  import opened Http
  import opened Auth
  import opened RouteGuard
  import opened EmployerLogin

  const MissingCredentials := "Please enter email/mobile and password"
  const NetworkLoginError := "Network error during login. Please try again."
  const ConfidentialPath := "/confidential-data"

  /** `authed`: a corporate role once hydration is over. The lock overlay is
      drawn exactly when this fails. */
  predicate Authed(isCorporate: bool, isHydrating: bool) {
    isCorporate && !isHydrating
  }

  /** The error for a refused login without a server message. */
  function GridLoginFailed(message: string, status: nat): (m: string)
    ensures message != "" ==> m == message
    ensures message == "" ==> m == "Login failed (" + NatToString(status) + ")"
  {
    OrElse(message, "Login failed (" + NatToString(status) + ")")
  }

  /** The reply is a refusal: not 2xx, or `success === false`. */
  predicate Refused(reply: Reply<LoginData>)
    requires reply.Response?
  {
    !reply.ok || reply.success == Some(false)
  }

  /** A login reply with an account and no token unlocks the grid, though the
      session it leaves is not authenticated and every client route sends the
      visitor to the employer login. */
  lemma UnlockedWithoutSession(a: RawAccount)
    ensures var d := AuthData(None, Some(CorporateRole), Some(CleanCorp(a)));
      && Authed(d.IsCorporate(), false)
      && !d.IsAuthenticated()
      && Decide(false, d.IsAuthenticated(), d.IsCorporate(), ClientRouteProps) == Redirect("/employer/login")
  {
  }

  datatype GridState = GridState(
    showLogin: bool, email: string, password: string, error: string,
    requests: seq<LoginRequest>, navigations: seq<string>)

  class AttritionGridPage {
    const auth: AuthProvider
    var showLogin: bool
    var email: string
    var password: string
    var error: string
    var requests: seq<LoginRequest>
    var navigations: seq<string>

    function State(): GridState
      reads this
    {
      GridState(showLogin, email, password, error, requests, navigations)
    }

    constructor (auth: AuthProvider)
      ensures this.auth == auth
      ensures State() == GridState(false, "", "", "", [], [])
    {
      this.auth := auth;
      showLogin, email, password, error := false, "", "", "";
      requests, navigations := [], [];
    }

    predicate IsAuthed()
      reads this, auth
    {
      Authed(auth.IsCorporate(), auth.isHydrating)
    }

    predicate OverlayShown()
      reads this, auth
    {
      !IsAuthed()
    }

    /** Either "Login" button, shown while locked. */
    method OpenLogin()
      modifies this
      ensures State() == old(State()).(showLogin := true)
    {
      showLogin := true;
    }

    /** The modal's cancel button. */
    method CloseLogin()
      modifies this
      ensures State() == old(State()).(showLogin := false)
    {
      showLogin := false;
    }

    method SetEmail(x: string)
      modifies this
      ensures State() == old(State()).(email := x)
    {
      email := x;
    }

    method SetPassword(x: string)
      modifies this
      ensures State() == old(State()).(password := x)
    {
      password := x;
    }

    /** "Access Confidential Data", shown once unlocked. */
    method AccessConfidential()
      requires IsAuthed()
      modifies this
      ensures State() == old(State()).(navigations := old(navigations) + [ConfidentialPath])
    {
      navigations := navigations + [ConfidentialPath];
    }

    /** `onLogin`, with the reply to the login request. Both the identifier and
        the password are sent trimmed, and blank ones are refused locally. An
        accepted login goes to `loginCorporate` as a bundle with `remember`
        true; a throw there (no account) is swallowed, and the modal closes and
        the page moves on either way. */
    method OnLogin(reply: Reply<LoginData>)
      modifies this, auth, auth.store
      ensures Trim(old(email)) == "" || Trim(old(password)) == "" ==>
        && State() == old(State()).(error := MissingCredentials)
        && auth.authData == old(auth.authData) && auth.store.local == old(auth.store.local)
      ensures var sent := old(requests) + [LoginRequest(Trim(old(email)), Trim(old(password)))];
        Trim(old(email)) != "" && Trim(old(password)) != "" && reply.NetworkError? ==>
          && State() == old(State()).(error := NetworkLoginError, requests := sent)
          && auth.authData == old(auth.authData) && auth.store.local == old(auth.store.local)
      ensures var sent := old(requests) + [LoginRequest(Trim(old(email)), Trim(old(password)))];
        Trim(old(email)) != "" && Trim(old(password)) != "" && reply.Response? && Refused(reply) ==>
          && State() == old(State()).(error := GridLoginFailed(reply.message, reply.status), requests := sent)
          && auth.authData == old(auth.authData) && auth.store.local == old(auth.store.local)
      ensures var sent := old(requests) + [LoginRequest(Trim(old(email)), Trim(old(password)))];
        Trim(old(email)) != "" && Trim(old(password)) != "" && reply.Response? && !Refused(reply) ==>
          && State() == old(State()).(error := "", requests := sent, showLogin := false,
                                      navigations := old(navigations) + [ConfidentialPath])
          && (reply.data.account.Some? ==>
                var u := CleanCorp(reply.data.account.value);
                && auth.authData == AuthData(reply.data.token, Some(CorporateRole), Some(u))
                && auth.store.local == WriteCorporate(old(auth.store.local), StoredText(reply.data.token), Serialize(CorpDoc(u))))
          && (reply.data.account.None? ==> auth.authData == old(auth.authData) && auth.store.local == old(auth.store.local))
      ensures auth.store.session == old(auth.store.session) && auth.isHydrating == old(auth.isHydrating)
    {
      error := "";
      var identifier := Trim(email);
      var pwd := Trim(password);
      if identifier == "" || pwd == "" {
        error := MissingCredentials;
        return;
      }
      requests := requests + [LoginRequest(identifier, pwd)];
      if reply.NetworkError? {
        error := NetworkLoginError;
      } else if Refused(reply) {
        error := GridLoginFailed(reply.message, reply.status);
      } else {
        var _ := auth.LoginCorporate(Bundled(TokenBundle(reply.data.token, reply.data.account), Some(true)));
        showLogin := false;
        navigations := navigations + [ConfidentialPath];
      }
    }

    /** `onLogout`: the context's logout, which locks the grid again. */
    method OnLogout()
      modifies auth, auth.store
      ensures auth.authData == SignedOut && auth.store.local == map[] && auth.store.session == map[]
      ensures !IsAuthed() && OverlayShown()
    {
      auth.Logout();
    }
  }
}
