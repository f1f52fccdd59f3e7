/** The confidential-data page of the demo area: the visitor picks a company,
    verifies their session address by OTP, and the profile table is fetched
    into the page. */
module DemoConfidential {
  import opened Wrappers
  import opened Text
  import opened Storage
  import opened Http
  import opened Auth
  import opened Profiles
  import opened Access

  /** The step queued by a successful verification, with the values its
      closure captured at that moment. */
  datatype Deferred = Deferred(targetPath: string, currentView: Option<View>, companyId: string, companyName: string)

  /** The view the deferred step fetches: the demo view when the target path
      asks for it, else the view on screen, else the service view. */
  function DeferredView(d: Deferred): (v: View)
    ensures Contains(d.targetPath, "/client/demo") ==> v == Demo
    ensures !Contains(d.targetPath, "/client/demo") ==> v == d.currentView.GetOr(Service)
  {
    if Contains(d.targetPath, "/client/demo") then Demo
    else match d.currentView
      case Some(v) => v
      case None => Service
  }

  const LoadFailed := "Failed to load data"

  /** `fetchData` once its reply is in: the rows and the table error. A failed
      request (`!resp.ok` or `success === false`) or a network failure leaves no
      rows and a non-empty error; otherwise every record of an array `data`
      becomes a row and anything else gives none. */
  function Fetched(reply: Reply<Option<seq<Profile>>>): (r: (seq<Row>, string))
    ensures r.1 == "" <==> reply.Response? && reply.ok && reply.success != Some(false)
    ensures r.1 != "" ==> r.0 == []
    ensures r.1 == "" && reply.data.Some? ==> r.0 == ToRows(reply.data.value)
    ensures r.1 == "" && reply.data.None? ==> r.0 == []
    ensures reply.Response? && !(reply.ok && reply.success != Some(false)) ==>
      r.1 == OrElse(reply.message, "Request failed (" + NatToString(reply.status) + ")")
    ensures reply.NetworkError? ==> r.1 == OrElse(reply.message, LoadFailed)
  {
    match reply
    case Response(ok, status, success, message, data) =>
      if !ok || success == Some(false) then ([], OrElse(message, "Request failed (" + NatToString(status) + ")"))
      else (ToRows(if data.Some? then data.value else []), "")
    case NetworkError(message) => ([], OrElse(message, LoadFailed))
  }

  /** Every state variable of the page, as one value. */
  datatype PageState = PageState(
    open: bool, targetPath: string, companies: seq<Company>, companyId: string, otp: string,
    verified: bool, globalVerified: bool, message: string,
    tableError: string, rows: seq<Row>, currentView: Option<View>,
    requests: seq<Request>, timers: seq<Deferred>)

  /** The page state once the verification effect has run. */
  function AfterSync(st: PageState, s: Sync): PageState {
    st.(verified := s.verified, globalVerified := st.globalVerified || s.global,
        message := if s.message.Some? then s.message.value else st.message,
        companyId := SyncedCompany(s, st.companyId))
  }

  const Mounted := PageState(false, "", [], "", "", false, false, "", "", [], None, [CompaniesRequest], [])

  class ConfidentialDemo {
    const store: BrowserStorage
    const userEmail: string
    var open: bool
    var targetPath: string
    var companies: seq<Company>
    var companyId: string
    var otp: string
    var verified: bool
    var globalVerified: bool
    var message: string
    var tableError: string
    var rows: seq<Row>
    var currentView: Option<View>
    /** The requests sent so far. */
    var requests: seq<Request>
    /** The deferred steps not yet run, oldest first. */
    var timers: seq<Deferred>

    function State(): PageState
      reads this
    {
      PageState(open, targetPath, companies, companyId, otp, verified, globalVerified, message,
                tableError, rows, currentView, requests, timers)
    }

    /** The table is drawn once a view has been chosen. */
    predicate TableShown()
      reads this
    {
      currentView.Some?
    }

    /** Mounting: the company list is requested and the verification effect runs. */
    constructor (store: BrowserStorage, user: Option<User>)
      ensures this.store == store && userEmail == EmailOf(user)
      ensures State() == AfterSync(Mounted, VerificationSync(store.local, EmailOf(user), ""))
    {
      this.store := store;
      userEmail := EmailOf(user);
      open, targetPath, companies, companyId, otp := false, "", [], "", "";
      verified, globalVerified, message := false, false, "";
      tableError, rows, currentView := "", [], None;
      requests, timers := [CompaniesRequest], [];
      new;
      RunVerificationEffect();
    }

    /** The verification effect on the current company. */
    method RunVerificationEffect()
      modifies this
      ensures State() == AfterSync(old(State()), VerificationSync(store.local, userEmail, old(companyId)))
    {
      var s := VerificationSync(store.local, userEmail, companyId);
      verified := s.verified;
      if s.global {
        globalVerified := true;
      }
      if s.message.Some? {
        message := s.message.value;
      }
      if s.preset.Some? {
        companyId := s.preset.value;
      }
    }

    /** The reply to the company-list request. */
    method CompaniesLoaded(reply: Reply<Option<seq<Company>>>)
      modifies this
      ensures Resolved(reply) ==> State() == old(State()).(companies := CompaniesFrom(reply))
      ensures !Resolved(reply) ==> State() == old(State()).(message := AxiosErrorMessage(reply, CompaniesFailed))
    {
      if Resolved(reply) {
        companies := CompaniesFrom(reply);
      } else {
        message := AxiosErrorMessage(reply, CompaniesFailed);
      }
    }

    /** Choosing a company in the select; the effect reruns when it changed. */
    method SelectCompany(id: string)
      modifies this
      ensures id == old(companyId) ==> State() == old(State())
      ensures id != old(companyId) ==>
        State() == AfterSync(old(State()).(companyId := id), VerificationSync(store.local, userEmail, id))
      ensures id != old(companyId) && userEmail != "" && GetItem(store.local, GlobalKey(userEmail)) == "1" &&
              GetItem(store.local, LastKey(userEmail)) != "" ==>
        companyId == GetItem(store.local, LastKey(userEmail))
    {
      if id != companyId {
        companyId := id;
        RunVerificationEffect();
      }
    }

    method SetOtp(value: string)
      modifies this
      ensures State() == old(State()).(otp := value)
    {
      otp := value;
    }

    /** The modal's Close button. */
    method CloseModal()
      modifies this
      ensures State() == old(State()).(open := false)
    {
      open := false;
    }

    /** `fetchData(view, chosenId, chosenName)` together with its reply. */
    method FetchData(view: View, chosenId: string, chosenName: string, reply: Reply<Option<seq<Profile>>>)
      modifies this
      ensures State() == old(State()).(
        requests := old(requests) + [ProfilesRequest(view, QueryFor(chosenId, chosenName))],
        rows := Fetched(reply).0, tableError := Fetched(reply).1)
    {
      requests := requests + [ProfilesRequest(view, QueryFor(chosenId, chosenName))];
      var (r, e) := Fetched(reply);
      rows := r;
      tableError := e;
    }

    /** `proceed(path)`: a verified visitor with a known company (chosen now, or
        the last one stored) gets the table at once and the company is
        remembered; anyone else gets the modal. The view is set either way. */
    method Proceed(path: string, reply: Reply<Option<seq<Profile>>>)
      modifies this, store
      ensures var view := ViewForPath(path);
        var chosen := OrElse(old(companyId), GetItem(old(store.local), LastKey(userEmail)));
        if old(verified) && chosen != "" then
          && store.local == old(store.local)[LastKey(userEmail) := chosen]
          && State() == old(State()).(
               currentView := Some(view),
               requests := old(requests) + [ProfilesRequest(view, QueryFor(chosen, CompanyNameFor(old(companies), chosen)))],
               rows := Fetched(reply).0, tableError := Fetched(reply).1)
        else
          && store.local == old(store.local)
          && State() == old(State()).(currentView := Some(view), targetPath := path, open := true)
      ensures store.session == old(store.session)
    {
      var view := ViewForPath(path);
      currentView := Some(view);
      if verified {
        var chosen := OrElse(companyId, GetItem(store.local, LastKey(userEmail)));
        if chosen != "" {
          store.SetItem(true, LastKey(userEmail), chosen);
          var cname := CompanyNameFor(companies, chosen);
          FetchData(view, chosen, cname, reply);
          return;
        }
      }
      targetPath := path;
      open := true;
    }

    /** `sendOtp` and its reply. Without a session address it fails locally
        and sends nothing. */
    method SendOtp(reply: Reply<()>)
      modifies this
      ensures userEmail == "" ==> State() == old(State()).(message := NoEmailMessage)
      ensures userEmail != "" ==> State() == old(State()).(
        requests := old(requests) + [SendOtpRequest(userEmail, old(companyId))],
        message := if Resolved(reply) then OtpSentMessage else AxiosErrorMessage(reply, SendFailed))
    {
      if userEmail == "" {
        message := NoEmailMessage;
        return;
      }
      requests := requests + [SendOtpRequest(userEmail, companyId)];
      if Resolved(reply) {
        message := OtpSentMessage;
      } else {
        message := AxiosErrorMessage(reply, SendFailed);
      }
    }

    /** `verifyOtp` and its reply. Success marks the address verified for the
        company and for every company, remembers the company and, when one is
        chosen, queues the deferred step; in memory only `verified` and the
        message change. Any other outcome changes only the message. */
    method VerifyOtp(reply: Reply<()>)
      modifies this, store
      ensures userEmail == "" ==> State() == old(State()).(message := NoEmailMessage) && store.local == old(store.local)
      ensures userEmail != "" && Resolved(reply) && reply.success == Some(true) ==>
        && store.local == VerifyWrites(old(store.local), userEmail, old(companyId))
        && State() == old(State()).(
             requests := old(requests) + [VerifyOtpRequest(userEmail, old(companyId), old(otp))],
             verified := true, message := VerifiedMessage,
             timers := if old(companyId) != "" then
                         old(timers) + [Deferred(old(targetPath), old(currentView), old(companyId), CompanyNameFor(old(companies), old(companyId)))]
                       else old(timers))
      ensures userEmail != "" && Resolved(reply) && reply.success != Some(true) ==>
        && store.local == old(store.local)
        && State() == old(State()).(
             requests := old(requests) + [VerifyOtpRequest(userEmail, old(companyId), old(otp))],
             message := OrElse(reply.message, VerifyFailed))
      ensures userEmail != "" && !Resolved(reply) ==>
        && store.local == old(store.local)
        && State() == old(State()).(
             requests := old(requests) + [VerifyOtpRequest(userEmail, old(companyId), old(otp))],
             message := AxiosErrorMessage(reply, VerifyFailed))
      ensures store.session == old(store.session)
    {
      if userEmail == "" {
        message := NoEmailMessage;
        return;
      }
      var company := companyId;
      var sent := requests + [VerifyOtpRequest(userEmail, company, otp)];
      if !Resolved(reply) {
        requests, message := sent, AxiosErrorMessage(reply, VerifyFailed);
      } else if reply.success == Some(true) {
        var queued := if company != "" then
          timers + [Deferred(targetPath, currentView, company, CompanyNameFor(companies, company))] else timers;
        requests, verified, message, timers := sent, true, VerifiedMessage, queued;
        StoreVerification(store, userEmail, company);
      } else {
        requests, message := sent, OrElse(reply.message, VerifyFailed);
      }
    }

    /** The deferred step, 400 ms after a successful verification: set the view,
        fetch its table and close the modal. */
    method RunDeferred(reply: Reply<Option<seq<Profile>>>)
      requires timers != []
      modifies this
      ensures var d := old(timers[0]);
        var view := DeferredView(d);
        State() == old(State()).(
          timers := old(timers[1..]), currentView := Some(view), open := false,
          requests := old(requests) + [ProfilesRequest(view, QueryFor(d.companyId, d.companyName))],
          rows := Fetched(reply).0, tableError := Fetched(reply).1)
    {
      var d := timers[0];
      timers := timers[1..];
      var view := DeferredView(d);
      currentView := Some(view);
      FetchData(view, d.companyId, d.companyName, reply);
      open := false;
    }

    /** The table's Refresh button: refetch the view on screen for the chosen
        company, else the last stored one; nothing when there is neither. */
    method Refresh(reply: Reply<Option<seq<Profile>>>)
      requires TableShown()
      modifies this
      ensures var chosen := OrElse(old(companyId), GetItem(store.local, LastKey(userEmail)));
        if chosen != "" then
          State() == old(State()).(
            requests := old(requests) + [ProfilesRequest(old(currentView.value), QueryFor(chosen, CompanyNameFor(old(companies), chosen)))],
            rows := Fetched(reply).0, tableError := Fetched(reply).1)
        else State() == old(State())
    {
      var chosen := OrElse(companyId, GetItem(store.local, LastKey(userEmail)));
      if chosen != "" {
        FetchData(currentView.value, chosen, CompanyNameFor(companies, chosen), reply);
      }
    }

    /** The Send OTP button is enabled. */
    predicate SendButtonEnabled()
      reads this
    {
      SendEnabled(companyId, userEmail, false)
    }

    /** The Submit button is enabled. */
    predicate SubmitButtonEnabled()
      reads this
    {
      SubmitEnabled(otp, companyId, userEmail, false)
    }

    /** The OTP controls are drawn only before a global verification. */
    predicate OtpControlsVisible()
      reads this
    {
      OtpControlsShown(globalVerified)
    }
  }
}
