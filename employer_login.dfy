/** The employer login page, in its two copies: the credential check, the
    login request and the hand-over of the returned session to the auth
    context. */
module EmployerLogin {
  import opened Wrappers
  import opened Text
  import opened Storage
  import opened Http
  import opened Validators
  import opened Json
  import opened Auth

  const IdentifierError := "Enter a valid email or mobile number."
  const PasswordError := "Password must be at least 6 characters."
  const LoginSucceeded := "Login successful"
  const RedirectingInfo := "Login successful. Redirecting..."
  const NetworkErrorNotice := "Network error. Please try again."
  const DashboardPath := "/client/dashboard"

  /** The identifier is an address somewhere in it (the pattern has no anchors)
      or, as a whole, a phone number. */
  predicate IdentifierValid(identifier: string) {
    ContainsEmail(identifier) || IsPhone(identifier)
  }

  /** `!password || password.length < 6` fails; an empty password is short. */
  predicate PasswordValid(password: string) {
    Utf16Length(password) >= 6
  }

  /** Three characters outside the Basic Multilingual Plane are six code
      units, so such a password passes. */
  lemma AstralPasswordPasses(c: char)
    requires c as int >= 0x1_0000
    ensures PasswordValid([c, c, c]) && |[c, c, c]| == 3
  {
    Utf16LengthAppend([c], [c, c]);
    Utf16LengthAppend([c], [c]);
    AstralCountsTwice(c);
  }

  /** The errors object: one message per failing check, and no key otherwise. */
  datatype Errors = Errors(identifier: Option<string>, password: Option<string>) {
    /** `Object.keys(e).length === 0`. */
    predicate Empty() {
      identifier.None? && password.None?
    }
  }

  function ValidateCreds(identifier: string, password: string): (e: Errors)
    ensures e.identifier.Some? <==> !IdentifierValid(identifier)
    ensures e.password.Some? <==> !PasswordValid(password)
    ensures e.identifier.Some? ==> e.identifier.value == IdentifierError
    ensures e.password.Some? ==> e.password.value == PasswordError
  {
    Errors(if IdentifierValid(identifier) then None else Some(IdentifierError),
           if PasswordValid(password) then None else Some(PasswordError))
  }

  /** The credentials pass exactly when both checks do. */
  lemma CredentialsPass(identifier: string, password: string)
    ensures ValidateCreds(identifier, password).Empty() <==> IdentifierValid(identifier) && PasswordValid(password)
  {
  }

  /** The login check is looser than the signup check: every full address
      passes, and so does an address with a space before it. */
  lemma LooserThanSignup(s: string)
    ensures IsEmail(s) ==> IdentifierValid(s)
    ensures IdentifierValid(" a@b.c") && !IsEmail(" a@b.c")
  {
    if IsEmail(s) {
      EmailContained(s);
    }
    PaddedAddress();
  }

  /** The JSON of a login reply besides `success` and `message`. */
  datatype LoginData = LoginData(error: string, token: Option<string>, account: Option<RawAccount>)

  /** `data?.token && data?.account`: a non-empty token and an account. */
  predicate SessionReturned(d: LoginData) {
    d.token.Some? && d.token.value != "" && d.account.Some?
  }

  /** The notice for a refused login. */
  function LoginFailedMessage(message: string, data: LoginData, status: nat): (m: string)
    ensures message != "" ==> m == message
    ensures message == "" && data.error != "" ==> m == data.error
    ensures message == "" && data.error == "" ==> m == "Login failed (" + NatToString(status) + ")"
    ensures m != ""
  {
    OrElse(message, OrElse(data.error, "Login failed (" + NatToString(status) + ")"))
  }

  /** `POST login/corporate` with the trimmed identifier and the password as typed. */
  datatype LoginRequest = LoginRequest(identifier: string, password: string)

  datatype NoticeKind = SuccessNotice | ErrorNotice
  datatype Notice = Notice(kind: NoticeKind, text: string)

  datatype PageState = PageState(
    identifier: string, password: string, errors: Errors, info: string,
    requests: seq<LoginRequest>, notices: seq<Notice>, navigations: seq<string>, timers: seq<string>)

  class EmployerLoginPage {
    /** The auth context the page logs in through. */
    const auth: AuthProvider
    /** The copy under `pages/` shows a notice on a network error; the other
        swallows it. */
    const noticeOnNetworkError: bool
    var identifier: string
    var password: string
    var errors: Errors
    var info: string
    var requests: seq<LoginRequest>
    var notices: seq<Notice>
    /** Pages navigated to, replacing the history entry. */
    var navigations: seq<string>
    /** Navigations queued for 600 ms later. */
    var timers: seq<string>

    function State(): PageState
      reads this
    {
      PageState(identifier, password, errors, info, requests, notices, navigations, timers)
    }

    constructor (auth: AuthProvider, noticeOnNetworkError: bool)
      ensures this.auth == auth && this.noticeOnNetworkError == noticeOnNetworkError
      ensures State() == PageState("", "", Errors(None, None), "", [], [], [], [])
    {
      this.auth := auth;
      this.noticeOnNetworkError := noticeOnNetworkError;
      identifier, password, errors, info := "", "", Errors(None, None), "";
      requests, notices, navigations, timers := [], [], [], [];
    }

    /** The effect on the auth flags: a restored corporate session goes
        straight to the dashboard. */
    method RedirectEffect()
      modifies this
      ensures !auth.isHydrating && auth.IsAuthenticated() && auth.IsCorporate() ==>
        State() == old(State()).(navigations := old(navigations) + [DashboardPath])
      ensures !(!auth.isHydrating && auth.IsAuthenticated() && auth.IsCorporate()) ==> State() == old(State())
    {
      if !auth.isHydrating && auth.IsAuthenticated() && auth.IsCorporate() {
        navigations := navigations + [DashboardPath];
      }
    }

    method SetIdentifier(x: string)
      modifies this
      ensures State() == old(State()).(identifier := x)
    {
      identifier := x;
    }

    method SetPassword(x: string)
      modifies this
      ensures State() == old(State()).(password := x)
    {
      password := x;
    }

    /** `onSubmitCreds`, with the reply to the login request. Failing
        credentials only show their errors. A refusal shows a notice and logs
        nobody in; an acceptance hands a returned session to `loginCorporate`
        positionally with `remember` true, and queues the redirect. */
    method SubmitCreds(reply: Reply<LoginData>)
      modifies this, auth, auth.store
      ensures var e := ValidateCreds(old(identifier), old(password));
        !e.Empty() ==>
          && State() == old(State()).(errors := e)
          && auth.authData == old(auth.authData) && auth.store.local == old(auth.store.local)
      ensures var e := ValidateCreds(old(identifier), old(password));
        var sent := old(requests) + [LoginRequest(Trim(old(identifier)), old(password))];
        e.Empty() && reply.NetworkError? ==>
          && State() == old(State()).(errors := e, info := "", requests := sent,
               notices := if noticeOnNetworkError then old(notices) + [Notice(ErrorNotice, NetworkErrorNotice)] else old(notices))
          && auth.authData == old(auth.authData) && auth.store.local == old(auth.store.local)
      ensures var e := ValidateCreds(old(identifier), old(password));
        var sent := old(requests) + [LoginRequest(Trim(old(identifier)), old(password))];
        e.Empty() && reply.Response? && !reply.ok ==>
          && State() == old(State()).(errors := e, info := "", requests := sent,
               notices := old(notices) + [Notice(ErrorNotice, LoginFailedMessage(reply.message, reply.data, reply.status))])
          && auth.authData == old(auth.authData) && auth.store.local == old(auth.store.local)
      ensures var e := ValidateCreds(old(identifier), old(password));
        var sent := old(requests) + [LoginRequest(Trim(old(identifier)), old(password))];
        e.Empty() && reply.Response? && reply.ok ==>
          && State() == old(State()).(errors := e, info := RedirectingInfo, requests := sent,
               notices := old(notices) + [Notice(SuccessNotice, OrElse(reply.message, LoginSucceeded))],
               timers := old(timers) + [DashboardPath])
          && (SessionReturned(reply.data) ==>
                var u := CleanCorp(reply.data.account.value);
                && auth.authData == AuthData(reply.data.token, Some(CorporateRole), Some(u))
                && auth.store.local == WriteCorporate(old(auth.store.local), reply.data.token.value, Serialize(CorpDoc(u))))
          && (!SessionReturned(reply.data) ==> auth.authData == old(auth.authData) && auth.store.local == old(auth.store.local))
      ensures auth.store.session == old(auth.store.session) && auth.isHydrating == old(auth.isHydrating)
    {
      var e := ValidateCreds(identifier, password);
      errors := e;
      if !e.Empty() {
        return;
      }
      info := "";
      requests := requests + [LoginRequest(Trim(identifier), password)];
      if reply.NetworkError? {
        if noticeOnNetworkError {
          notices := notices + [Notice(ErrorNotice, NetworkErrorNotice)];
        }
      } else if !reply.ok {
        notices := notices + [Notice(ErrorNotice, LoginFailedMessage(reply.message, reply.data, reply.status))];
      } else {
        if SessionReturned(reply.data) {
          var _ := auth.LoginCorporate(Positional(reply.data.token, reply.data.account, Some(true)));
        }
        notices := notices + [Notice(SuccessNotice, OrElse(reply.message, LoginSucceeded))];
        info := RedirectingInfo;
        timers := timers + [DashboardPath];
      }
    }

    /** The queued redirect fires. */
    method RunDeferred()
      requires timers != []
      modifies this
      ensures State() == old(State()).(timers := old(timers[1..]), navigations := old(navigations) + [old(timers[0])])
    {
      navigations := navigations + [timers[0]];
      timers := timers[1..];
    }
  }
}
