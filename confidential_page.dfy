/** The confidential-data page of the client area: the same company choice and
    OTP verification as the demo page, but it navigates to the chosen page with
    the company in the query string instead of fetching a table. */
module ConfidentialPage {
  import opened Wrappers
  import opened Text
  import opened Storage
  import opened Http
  import opened Auth
  import opened Access

  /** `navigate(`${path}?companyId=...${nameQS}`)`. */
  datatype Navigation = Navigation(path: string, query: CompanyQuery)

  /** A navigation queued by a successful verification, 400 ms later. */
  datatype Deferred = Deferred(nav: Navigation)

  datatype PageState = PageState(
    open: bool, targetPath: string, companies: seq<Company>, companyId: string, otp: string,
    verified: bool, globalVerified: bool, message: string,
    requests: seq<Request>, navigations: seq<Navigation>, timers: seq<Deferred>)

  function AfterSync(st: PageState, s: Sync): PageState {
    st.(verified := s.verified, globalVerified := st.globalVerified || s.global,
        message := if s.message.Some? then s.message.value else st.message,
        companyId := SyncedCompany(s, st.companyId))
  }

  const Mounted := PageState(false, "", [], "", "", false, false, "", [CompaniesRequest], [], [])

  class ConfidentialDataPage {
    const store: BrowserStorage
    const userEmail: string
    var open: bool
    var targetPath: string
    var companies: seq<Company>
    var companyId: string
    var otp: string
    var verified: bool
    var globalVerified: bool
    var message: string
    var requests: seq<Request>
    /** The navigations made so far. */
    var navigations: seq<Navigation>
    var timers: seq<Deferred>

    function State(): PageState
      reads this
    {
      PageState(open, targetPath, companies, companyId, otp, verified, globalVerified, message,
                requests, navigations, timers)
    }

    constructor (store: BrowserStorage, user: Option<User>)
      ensures this.store == store && userEmail == EmailOf(user)
      ensures State() == AfterSync(Mounted, VerificationSync(store.local, EmailOf(user), ""))
    {
      this.store := store;
      userEmail := EmailOf(user);
      open, targetPath, companies, companyId, otp := false, "", [], "", "";
      verified, globalVerified, message := false, false, "";
      requests, navigations, timers := [CompaniesRequest], [], [];
      new;
      RunVerificationEffect();
    }

    method RunVerificationEffect()
      modifies this
      ensures State() == AfterSync(old(State()), VerificationSync(store.local, userEmail, old(companyId)))
    {
      var s := VerificationSync(store.local, userEmail, companyId);
      verified := s.verified;
      if s.global {
        globalVerified := true;
      }
      if s.message.Some? {
        message := s.message.value;
      }
      if s.preset.Some? {
        companyId := s.preset.value;
      }
    }

    method CompaniesLoaded(reply: Reply<Option<seq<Company>>>)
      modifies this
      ensures Resolved(reply) ==> State() == old(State()).(companies := CompaniesFrom(reply))
      ensures !Resolved(reply) ==> State() == old(State()).(message := AxiosErrorMessage(reply, CompaniesFailed))
    {
      if Resolved(reply) {
        companies := CompaniesFrom(reply);
      } else {
        message := AxiosErrorMessage(reply, CompaniesFailed);
      }
    }

    method SelectCompany(id: string)
      modifies this
      ensures id == old(companyId) ==> State() == old(State())
      ensures id != old(companyId) ==>
        State() == AfterSync(old(State()).(companyId := id), VerificationSync(store.local, userEmail, id))
      ensures id != old(companyId) && userEmail != "" && GetItem(store.local, GlobalKey(userEmail)) == "1" &&
              GetItem(store.local, LastKey(userEmail)) != "" ==>
        companyId == GetItem(store.local, LastKey(userEmail))
    {
      if id != companyId {
        companyId := id;
        RunVerificationEffect();
      }
    }

    method SetOtp(value: string)
      modifies this
      ensures State() == old(State()).(otp := value)
    {
      otp := value;
    }

    method CloseModal()
      modifies this
      ensures State() == old(State()).(open := false)
    {
      open := false;
    }

    /** `proceed(path)`: a verified visitor with a known company is sent to the
        page with the company in the query and the company is remembered;
        anyone else gets the modal, with no navigation. */
    method Proceed(path: string)
      modifies this, store
      ensures var chosen := OrElse(old(companyId), GetItem(old(store.local), LastKey(userEmail)));
        if old(verified) && chosen != "" then
          && store.local == old(store.local)[LastKey(userEmail) := chosen]
          && State() == old(State()).(
               navigations := old(navigations) + [Navigation(path, QueryFor(chosen, CompanyNameFor(old(companies), chosen)))])
        else
          && store.local == old(store.local)
          && State() == old(State()).(targetPath := path, open := true)
      ensures store.session == old(store.session)
    {
      if verified {
        var chosen := OrElse(companyId, GetItem(store.local, LastKey(userEmail)));
        if chosen != "" {
          store.SetItem(true, LastKey(userEmail), chosen);
          navigations := navigations + [Navigation(path, QueryFor(chosen, CompanyNameFor(companies, chosen)))];
          return;
        }
      }
      targetPath := path;
      open := true;
    }

    method SendOtp(reply: Reply<()>)
      modifies this
      ensures userEmail == "" ==> State() == old(State()).(message := NoEmailMessage)
      ensures userEmail != "" ==> State() == old(State()).(
        requests := old(requests) + [SendOtpRequest(userEmail, old(companyId))],
        message := if Resolved(reply) then OtpSentMessage else AxiosErrorMessage(reply, SendFailed))
    {
      if userEmail == "" {
        message := NoEmailMessage;
        return;
      }
      requests := requests + [SendOtpRequest(userEmail, companyId)];
      if Resolved(reply) {
        message := OtpSentMessage;
      } else {
        message := AxiosErrorMessage(reply, SendFailed);
      }
    }

    /** `verifyOtp`: the same storage marks as the demo page on success; the
        navigation is queued only when both a target page and a company are set. */
    method VerifyOtp(reply: Reply<()>)
      modifies this, store
      ensures userEmail == "" ==> State() == old(State()).(message := NoEmailMessage) && store.local == old(store.local)
      ensures userEmail != "" && Resolved(reply) && reply.success == Some(true) ==>
        && store.local == VerifyWrites(old(store.local), userEmail, old(companyId))
        && State() == old(State()).(
             requests := old(requests) + [VerifyOtpRequest(userEmail, old(companyId), old(otp))],
             verified := true, message := VerifiedMessage,
             timers := if old(targetPath) != "" && old(companyId) != "" then
                         old(timers) + [Deferred(Navigation(old(targetPath), QueryFor(old(companyId), CompanyNameFor(old(companies), old(companyId)))))]
                       else old(timers))
      ensures userEmail != "" && Resolved(reply) && reply.success != Some(true) ==>
        && store.local == old(store.local)
        && State() == old(State()).(
             requests := old(requests) + [VerifyOtpRequest(userEmail, old(companyId), old(otp))],
             message := OrElse(reply.message, VerifyFailed))
      ensures userEmail != "" && !Resolved(reply) ==>
        && store.local == old(store.local)
        && State() == old(State()).(
             requests := old(requests) + [VerifyOtpRequest(userEmail, old(companyId), old(otp))],
             message := AxiosErrorMessage(reply, VerifyFailed))
      ensures store.session == old(store.session)
    {
      if userEmail == "" {
        message := NoEmailMessage;
        return;
      }
      requests := requests + [VerifyOtpRequest(userEmail, companyId, otp)];
      if !Resolved(reply) {
        message := AxiosErrorMessage(reply, VerifyFailed);
      } else if reply.success == Some(true) {
        verified := true;
        message := VerifiedMessage;
        StoreVerification(store, userEmail, companyId);
        if targetPath != "" && companyId != "" {
          var nav := Navigation(targetPath, QueryFor(companyId, CompanyNameFor(companies, companyId)));
          timers := timers + [Deferred(nav)];
        }
      } else {
        message := OrElse(reply.message, VerifyFailed);
      }
    }

    /** The queued navigation, 400 ms later. */
    method RunDeferred()
      requires timers != []
      modifies this
      ensures State() == old(State()).(timers := old(timers[1..]), navigations := old(navigations) + [old(timers[0].nav)])
    {
      navigations := navigations + [timers[0].nav];
      timers := timers[1..];
    }

    /** The Continue button is enabled. */
    predicate ContinueEnabled()
      reads this
    {
      verified && companyId != ""
    }

    /** The modal's Continue button: acts only when verified with a company,
        remembering the company and navigating to the target page. */
    method Continue()
      modifies this, store
      ensures old(ContinueEnabled()) ==>
        && store.local == old(store.local)[LastKey(userEmail) := old(companyId)]
        && State() == old(State()).(
             navigations := old(navigations) + [Navigation(old(targetPath), QueryFor(old(companyId), CompanyNameFor(old(companies), old(companyId))))])
      ensures !old(ContinueEnabled()) ==> State() == old(State()) && store.local == old(store.local)
      ensures store.session == old(store.session)
    {
      if verified && companyId != "" {
        store.SetItem(true, LastKey(userEmail), companyId);
        navigations := navigations + [Navigation(targetPath, QueryFor(companyId, CompanyNameFor(companies, companyId)))];
      }
    }

    predicate SendButtonEnabled()
      reads this
    {
      SendEnabled(companyId, userEmail, false)
    }

    predicate SubmitButtonEnabled()
      reads this
    {
      SubmitEnabled(otp, companyId, userEmail, false)
    }

    predicate OtpControlsVisible()
      reads this
    {
      OtpControlsShown(globalVerified)
    }
  }
}
