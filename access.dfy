/** What the two confidential-data pages share: the storage keys that remember
    an OTP verification, the verification state restored from them, the company
    list and its lookup, the requests the pages send and their button gates. */
module Access {
  import opened Wrappers
  import opened Text
  import opened Storage
  import opened Http
  import opened Auth
  import opened Profiles

  /** `user?.email || ""`. */
  function EmailOf(user: Option<User>): string {
    if user.Some? then user.value.email else ""
  }

  /** Verification of `email` for one company. */
  function VerifiedKey(email: string, companyId: string): string {
    "public_access_verified:" + email + ":" + companyId
  }

  /** Verification of `email` for every company. */
  function GlobalKey(email: string): string {
    "public_access_verified_global:" + email
  }

  /** The company `email` last opened data for. */
  function LastKey(email: string): string {
    "public_access_last_company:" + email
  }

  /** The three keys of one address never collide, so writing one never
      overwrites another. */
  lemma {:induction false} KeysDistinct(email: string, companyId: string)
    ensures VerifiedKey(email, companyId) != GlobalKey(email)
    ensures VerifiedKey(email, companyId) != LastKey(email)
    ensures GlobalKey(email) != LastKey(email)
  {
    assert VerifiedKey(email, companyId)[22] == ':';
    assert GlobalKey(email)[22] == '_';
    assert VerifiedKey(email, companyId)[14] == 'v';
    assert GlobalKey(email)[14] == 'v';
    assert LastKey(email)[14] == 'l';
  }

  /** The per-company key does not separate address from company: an address
      containing ':' can share its key with another address and company. */
  lemma VerifiedKeyAmbiguous()
    ensures VerifiedKey("a:b", "c") == VerifiedKey("a", "b:c")
  {
  }

  datatype Company = Company(id: string, companyName: string, name: string)

  /** `i` is the first index of a company with that id. */
  predicate FirstMatchAt(cs: seq<Company>, id: string, i: int) {
    0 <= i < |cs| && cs[i].id == id && forall j :: 0 <= j < i ==> cs[j].id != id
  }

  function FirstIndex(cs: seq<Company>, id: string): (r: Option<nat>)
    ensures r.Some? ==> FirstMatchAt(cs, id, r.value)
    ensures r.None? ==> forall i :: 0 <= i < |cs| ==> cs[i].id != id
    decreases |cs|
  {
    if cs == [] then None
    else if cs[0].id == id then Some(0)
    else
      match FirstIndex(cs[1..], id)
      case None => None
      case Some(k) =>
        assert forall j :: 1 <= j <= k ==> cs[j] == cs[1..][j - 1];
        Some(k + 1)
  }

  /** `companies.find(c => c._id === id)`: the first company with that id. */
  function FindCompany(cs: seq<Company>, id: string): (r: Option<Company>)
    ensures r.None? <==> forall i :: 0 <= i < |cs| ==> cs[i].id != id
    ensures r.Some? ==> exists i :: FirstMatchAt(cs, id, i) && cs[i] == r.value
  {
    match FirstIndex(cs, id)
    case None => None
    case Some(k) => Some(cs[k])
  }

  /** `comp?.companyName || comp?.name || ''`. */
  function CompanyNameFor(cs: seq<Company>, id: string): (n: string)
    ensures FindCompany(cs, id).None? ==> n == ""
    ensures FindCompany(cs, id).Some? ==> n == OrElse(FindCompany(cs, id).value.companyName, FindCompany(cs, id).value.name)
  {
    match FindCompany(cs, id)
    case None => ""
    case Some(c) => OrElse(c.companyName, OrElse(c.name, ""))
  }

  /** A company listed twice is named after its first entry. */
  lemma FirstCompanyWins(a: Company, b: Company, rest: seq<Company>)
    requires a.id == b.id && a.companyName != ""
    ensures CompanyNameFor([a, b] + rest, a.id) == a.companyName
  {
  }

  /** `?companyId=<id>`, with `&companyName=<name>` only for a non-empty name. */
  datatype CompanyQuery = CompanyQuery(companyId: string, companyName: Option<string>)

  function QueryFor(companyId: string, companyName: string): (q: CompanyQuery)
    ensures q.companyId == companyId
    ensures q.companyName.Some? <==> companyName != ""
    ensures q.companyName.Some? ==> q.companyName.value == companyName
  {
    CompanyQuery(companyId, if companyName != "" then Some(companyName) else None)
  }

  /** The requests the pages send. */
  datatype Request =
    | CompaniesRequest
    | SendOtpRequest(email: string, companyId: string)
    | VerifyOtpRequest(email: string, companyId: string, otp: string)
    | ProfilesRequest(view: View, query: CompanyQuery)

  const NoEmailMessage := "No email found in session. Please login."
  const AlreadyVerified := "Already verified."
  const AlreadyVerifiedForCompany := "Already verified for this company."
  const OtpSentMessage := "Submit OTP to see demo data"
  const VerifiedMessage := "Verified! You can access the data now."
  const SendFailed := "Failed to send OTP"
  const VerifyFailed := "Failed to verify OTP"
  const CompaniesFailed := "Failed to load companies"

  /** What the verification effect sets: `verified`; `globalVerified` when
      `global` (it never clears it); `message` when there is one; and
      `companyId` when a last company is preset. */
  datatype Sync = Sync(verified: bool, global: bool, message: Option<string>, preset: Option<string>)

  /** The verification effect, run on mount and whenever the company changes. */
  function VerificationSync(local: map<string, string>, email: string, companyId: string): (s: Sync)
    ensures s.global <==> email != "" && GetItem(local, GlobalKey(email)) == "1"
    ensures s.global ==> s.verified
    ensures s.verified && !s.global <==>
      email != "" && companyId != "" && GetItem(local, VerifiedKey(email, companyId)) == "1" && !s.global
    ensures s.message == (if !s.verified then None
                          else if s.global then Some(AlreadyVerified)
                          else Some(AlreadyVerifiedForCompany))
    ensures s.preset.Some? <==> s.global && GetItem(local, LastKey(email)) != ""
    ensures s.preset.Some? ==> s.preset.value == GetItem(local, LastKey(email))
  {
    if email == "" then Sync(false, false, None, None)
    else if GetItem(local, GlobalKey(email)) == "1" then
      var last := GetItem(local, LastKey(email));
      Sync(true, true, Some(AlreadyVerified), if last != "" then Some(last) else None)
    else if companyId != "" then
      var per := GetItem(local, VerifiedKey(email, companyId)) == "1";
      Sync(per, false, if per then Some(AlreadyVerifiedForCompany) else None, None)
    else Sync(false, false, None, None)
  }

  /** The company after the effect. */
  function SyncedCompany(s: Sync, companyId: string): string {
    if s.preset.Some? then s.preset.value else companyId
  }

  /** The effect reaches a fixed point at once: the company it presets makes it
      run again (its dependency changed), and that second run changes nothing more. */
  lemma SyncStable(local: map<string, string>, email: string, companyId: string)
    ensures var s := VerificationSync(local, email, companyId);
      VerificationSync(local, email, SyncedCompany(s, companyId)) == s
  {
  }

  /** Once the global mark and a last company are stored, the effect sets the
      company back to the last one whatever company it ran for, so the select
      cannot leave that company. */
  lemma GlobalMarkPinsCompany(local: map<string, string>, email: string, companyId: string)
    requires email != "" && GetItem(local, GlobalKey(email)) == "1"
    ensures var last := GetItem(local, LastKey(email));
      last != "" ==> SyncedCompany(VerificationSync(local, email, companyId), companyId) == last
    ensures var last := GetItem(local, LastKey(email));
      last == "" ==> SyncedCompany(VerificationSync(local, email, companyId), companyId) == companyId
  {
  }

  /** The visitor counts as verified only with a session address and a stored mark. */
  lemma VerifiedNeedsMark(local: map<string, string>, email: string, companyId: string)
    ensures VerificationSync(local, email, companyId).verified <==>
      email != "" && (GetItem(local, GlobalKey(email)) == "1" ||
                      (companyId != "" && GetItem(local, VerifiedKey(email, companyId)) == "1"))
  {
  }

  /** The three writes of a successful verification, made in this order. */
  function VerifyWrites(local: map<string, string>, email: string, companyId: string): map<string, string> {
    local[VerifiedKey(email, companyId) := "1"][GlobalKey(email) := "1"][LastKey(email) := companyId]
  }

  /** The three `localStorage.setItem` calls of a successful verification. */
  method StoreVerification(store: BrowserStorage, email: string, companyId: string)
    modifies store
    ensures store.local == VerifyWrites(old(store.local), email, companyId) && store.session == old(store.session)
  {
    store.SetItem(true, VerifiedKey(email, companyId), "1");
    store.SetItem(true, GlobalKey(email), "1");
    store.SetItem(true, LastKey(email), companyId);
  }

  /** After a successful verification every key holds what was written to it,
      so the next visit of the same address is verified for every company and
      preselects the company just verified. */
  lemma VerifyWritesRemembered(local: map<string, string>, email: string, companyId: string, other: string)
    requires email != ""
    ensures var l := VerifyWrites(local, email, companyId);
      && GetItem(l, VerifiedKey(email, companyId)) == "1"
      && GetItem(l, GlobalKey(email)) == "1"
      && GetItem(l, LastKey(email)) == companyId
      && VerificationSync(l, email, other) ==
         Sync(true, true, Some(AlreadyVerified), if companyId != "" then Some(companyId) else None)
  {
    KeysDistinct(email, companyId);
  }

  /** Logout wipes the marks: nobody is verified afterwards. */
  lemma LogoutForgetsVerification(email: string, companyId: string)
    ensures !VerificationSync(map[], email, companyId).verified
  {
  }

  /** `disabled={!companyId || !userEmail || sending}`, negated. */
  predicate SendEnabled(companyId: string, email: string, sending: bool) {
    companyId != "" && email != "" && !sending
  }

  /** `disabled={!otp || !companyId || !userEmail || verifying}`, negated. */
  predicate SubmitEnabled(otp: string, companyId: string, email: string, verifying: bool) {
    otp != "" && companyId != "" && email != "" && !verifying
  }

  /** The OTP controls are drawn only while not verified for every company. */
  predicate OtpControlsShown(globalVerified: bool) {
    !globalVerified
  }

  /** Either enabled button means a request will go out: without an address the
      handler fails locally, and the gates never allow that. */
  lemma GatesNeedAddress(otp: string, companyId: string, email: string, busy: bool)
    ensures SendEnabled(companyId, email, busy) || SubmitEnabled(otp, companyId, email, busy) ==> email != ""
    ensures SubmitEnabled(otp, companyId, email, busy) ==> SendEnabled(companyId, email, busy)
  {
  }

  /** The company list from `getCompanies/all`: `data.data` when it is an array. */
  function CompaniesFrom(reply: Reply<Option<seq<Company>>>): (cs: seq<Company>)
    requires Resolved(reply)
    ensures reply.data.Some? ==> cs == reply.data.value
    ensures reply.data.None? ==> cs == []
  {
    if reply.data.Some? then reply.data.value else []
  }
}
