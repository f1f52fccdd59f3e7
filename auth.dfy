/** The authentication context: the identity kept in memory, the way it is
    written to and restored from the two storage tiers, and the flags every
    guarded page reads. Internal staff accounts use the keys `token`, `role`
    and `user`; corporate (employer) accounts use `corp_token` and
    `corp_account`. */
module Auth {
  import opened Wrappers
  import opened Text
  import opened Json
  import opened Storage

  const TokenKey := "token"
  const RoleKey := "role"
  const UserKey := "user"
  const CorpTokenKey := "corp_token"
  const CorpAccountKey := "corp_account"
  const CorporateRole := "corporate"

  /** JavaScript's `x || fallback` on an optional string. */
  function Or(x: Option<string>, fallback: string): (r: string)
    ensures x.Some? && x.value != "" ==> r == x.value
    ensures (x.None? || x.value == "") ==> r == fallback
  {
    if x.Some? && x.value != "" then x.value else fallback
  }

  /** `x || null` on an optional string. */
  function OrNull(x: Option<string>): (r: Option<string>)
    ensures r.Some? <==> x.Some? && x.value != ""
    ensures r.Some? ==> r == x
  {
    if x.Some? && x.value != "" then x else None
  }

  /** An internal user as the login endpoint or the stored record supplies it. */
  datatype RawUser = RawUser(id: Option<string>, name: Option<string>, email: Option<string>, reportsTo: Option<string>)

  /** A corporate account as the login endpoint or the stored record supplies it. */
  datatype RawAccount = RawAccount(
    id: Option<string>, hrName: Option<string>, companyName: Option<string>,
    email: Option<string>, mobile: Option<string>, designation: Option<string>)

  /** The normalised user kept in memory. */
  datatype User =
    | Internal(id: Option<string>, name: string, email: string, reportsTo: Option<string>)
    | Corporate(id: Option<string>, name: string, hrName: string, email: string,
                mobile: string, companyName: string, designation: string)

  predicate EndsWithLg(s: string) {
    |s| >= 3 && s[|s| - 3..] == " LG"
  }

  /** `name.replace(/ LG$/, "")`: one trailing " LG" removed. */
  function StripLg(s: string): (r: string)
    ensures EndsWithLg(s) ==> s == r + " LG"
    ensures !EndsWithLg(s) ==> r == s
  {
    if EndsWithLg(s) then s[..|s| - 3] else s
  }

  /** `cleanUser`: the name without one trailing " LG", defaulting to "User";
      a missing email becomes ""; an empty `reportsTo` becomes null. */
  function CleanUser(raw: RawUser): (u: User)
    ensures u.Internal? && u.id == raw.id && u.name != ""
    ensures raw.name.Some? && StripLg(raw.name.value) != "" ==> u.name == StripLg(raw.name.value)
    ensures raw.name.None? || StripLg(raw.name.value) == "" ==> u.name == "User"
    ensures u.email == Or(raw.email, "") && u.reportsTo == OrNull(raw.reportsTo)
  {
    var name := if raw.name.Some? then Some(StripLg(raw.name.value)) else None;
    Internal(raw.id, Or(name, "User"), Or(raw.email, ""), OrNull(raw.reportsTo))
  }

  /** `cleanCorp`: the display name is the HR name, else the company name, else
      "Employer"; every other missing field becomes "". */
  function CleanCorp(a: RawAccount): (u: User)
    ensures u.Corporate? && u.id == a.id && u.name != ""
    ensures u.name == (if Or(a.hrName, "") != "" then a.hrName.value
                       else if Or(a.companyName, "") != "" then a.companyName.value
                       else "Employer")
    ensures u.hrName == Or(a.hrName, "") && u.companyName == Or(a.companyName, "")
    ensures u.email == Or(a.email, "") && u.mobile == Or(a.mobile, "") && u.designation == Or(a.designation, "")
  {
    Corporate(a.id, Or(a.hrName, Or(a.companyName, "Employer")), Or(a.hrName, ""), Or(a.email, ""),
              Or(a.mobile, ""), Or(a.companyName, ""), Or(a.designation, ""))
  }

  /** The record hydration uses when a corporate token is stored without an account. */
  const MinimalCorp := Corporate(None, "Employer", "", "", "", "", "")

  /** The stored form of an internal user: fields id, name, email, reportsTo. */
  function UserDoc(u: User): Doc
    requires u.Internal?
  {
    ObjectDoc([u.id, Some(u.name), Some(u.email), u.reportsTo])
  }

  /** The stored form of a corporate user: id, name, hrName, email, mobile, companyName, designation. */
  function CorpDoc(u: User): Doc
    requires u.Corporate?
  {
    ObjectDoc([u.id, Some(u.name), Some(u.hrName), Some(u.email), Some(u.mobile), Some(u.companyName), Some(u.designation)])
  }

  /** Reading the fields of a parsed `user` record. */
  function UserOfCells(c: seq<Option<string>>): RawUser {
    RawUser(CellAt(c, 0), CellAt(c, 1), CellAt(c, 2), CellAt(c, 3))
  }

  /** Reading the fields of a parsed `corp_account` record. */
  function AccountOfCells(c: seq<Option<string>>): RawAccount {
    RawAccount(CellAt(c, 0), CellAt(c, 2), CellAt(c, 5), CellAt(c, 3), CellAt(c, 4), CellAt(c, 6))
  }

  /** The five values hydration reads, each from the durable tier first. */
  datatype StoredKeys = StoredKeys(token: string, role: string, user: string, corpToken: string, corpAccount: string)

  function ReadKeys(local: map<string, string>, session: map<string, string>): StoredKeys {
    StoredKeys(ReadKey(local, session, TokenKey), ReadKey(local, session, RoleKey), ReadKey(local, session, UserKey),
               ReadKey(local, session, CorpTokenKey), ReadKey(local, session, CorpAccountKey))
  }

  /** `s ? JSON.parse(s) : null`: nothing when the parse throws. */
  function ParseIfPresent(s: string): Option<Doc> {
    if s == "" then Some(NullDoc) else Parse(s)
  }

  datatype Hydration = ParseFailed | NoSession | Restored(token: string, role: string, user: User)

  /** The stored internal triple is complete: a token, a role and a user record. */
  predicate InternalTriple(k: StoredKeys) {
    k.token != "" && k.role != "" && ParseIfPresent(k.user).Some? && ParseIfPresent(k.user).value.ObjectDoc?
  }

  /** What hydration concludes from the stored values. Both records are parsed
      before either branch is taken, so a bad record of either kind stops it. */
  function Restore(k: StoredKeys): (h: Hydration)
    ensures h == ParseFailed <==> ParseIfPresent(k.user).None? || ParseIfPresent(k.corpAccount).None?
    ensures h.Restored? && h.role != CorporateRole ==> InternalTriple(k)
    ensures h.Restored? ==> h.token != ""
  {
    var user := ParseIfPresent(k.user);
    var account := ParseIfPresent(k.corpAccount);
    if user.None? || account.None? then ParseFailed
    else if k.token != "" && k.role != "" && user.value.ObjectDoc? then
      Restored(k.token, k.role, CleanUser(UserOfCells(user.value.cells)))
    else if k.corpToken != "" && (account.value.ObjectDoc? || k.corpAccount == "") then
      Restored(k.corpToken, CorporateRole,
               if account.value.ObjectDoc? then CleanCorp(AccountOfCells(account.value.cells)) else MinimalCorp)
    else NoSession
  }

  /** A complete internal triple wins over any corporate keys. */
  lemma InternalPrecedence(k: StoredKeys)
    requires InternalTriple(k) && ParseIfPresent(k.corpAccount).Some?
    ensures Restore(k) == Restored(k.token, k.role, CleanUser(UserOfCells(ParseIfPresent(k.user).value.cells)))
    ensures Restore(k.(corpToken := "t", corpAccount := "")) == Restore(k)
  {
  }

  /** A corporate token without an account record still restores a corporate
      session, with the minimal record. */
  lemma LenientCorporate(k: StoredKeys)
    requires !InternalTriple(k) && ParseIfPresent(k.user).Some?
    requires k.corpToken != "" && k.corpAccount == ""
    ensures Restore(k) == Restored(k.corpToken, CorporateRole, MinimalCorp)
    ensures MinimalCorp.name == "Employer" && MinimalCorp.id.None?
    ensures MinimalCorp.hrName == MinimalCorp.email == MinimalCorp.mobile == MinimalCorp.companyName == MinimalCorp.designation == ""
  {
  }

  /** A record of either kind that does not parse stops hydration: the
      identity already in memory is kept. */
  lemma ParseFailureInstallsNothing(k: StoredKeys, current: AuthData)
    requires ParseIfPresent(k.user).None? || ParseIfPresent(k.corpAccount).None?
    ensures Restore(k) == ParseFailed && Installed(Restore(k), current) == current
  {
  }

  /** A stored `corp_account` of `null` is neither an account nor absent:
      without an internal triple nothing is restored. */
  lemma NullAccountRestoresNothing(k: StoredKeys)
    requires !InternalTriple(k) && ParseIfPresent(k.user).Some? && k.corpAccount == "null"
    ensures Restore(k) == NoSession
  {
  }

  /** The in-memory identity. */
  datatype AuthData = AuthData(authToken: Option<string>, role: Option<string>, user: Option<User>) {
    /** `!!authToken`. */
    predicate IsAuthenticated() {
      authToken.Some? && authToken.value != ""
    }

    /** `role === 'corporate'`. */
    predicate IsCorporate() {
      role == Some(CorporateRole)
    }

    /** `role !== null && role !== 'corporate'`. */
    predicate IsInternal() {
      role.Some? && role.value != CorporateRole
    }
  }

  const SignedOut := AuthData(None, None, None)

  /** An identity is never both corporate and internal, and one without a role is neither. */
  lemma {:induction false} RolesExclusive(d: AuthData)
    ensures !(d.IsCorporate() && d.IsInternal())
    ensures d.role.None? ==> !d.IsCorporate() && !d.IsInternal()
    ensures d.role.Some? ==> d.IsCorporate() || d.IsInternal()
  {
  }

  /** The identity hydration installs, if any. */
  function Installed(h: Hydration, current: AuthData): (d: AuthData)
    ensures h.Restored? ==> (d.IsAuthenticated() <==> h.token != "") && d.user == Some(h.user)
    ensures h.Restored? ==> (d.IsCorporate() <==> h.role == CorporateRole)
    ensures !h.Restored? ==> d == current
  {
    if h.Restored? then AuthData(Some(h.token), Some(h.role), Some(h.user)) else current
  }

  /** The three internal keys written to one tier. */
  function WriteInternal(tier: map<string, string>, token: string, role: string, user: string): map<string, string> {
    tier[TokenKey := token][RoleKey := role][UserKey := user]
  }

  /** The two corporate keys written to one tier. */
  function WriteCorporate(tier: map<string, string>, token: string, account: string): map<string, string> {
    tier[CorpTokenKey := token][CorpAccountKey := account]
  }

  /** `setItem(k, undefined)` stores the text "undefined". */
  function StoredText(v: Option<string>): string {
    match v
    case Some(s) => s
    case None => "undefined"
  }

  /** Writing one namespace leaves every key outside it as it was, so the other
      namespace is untouched. */
  lemma {:induction false} NamespacesDisjoint(tier: map<string, string>, a: string, b: string, c: string, key: string)
    ensures key != TokenKey && key != RoleKey && key != UserKey ==>
      GetItem(WriteInternal(tier, a, b, c), key) == GetItem(tier, key)
    ensures key != CorpTokenKey && key != CorpAccountKey ==>
      GetItem(WriteCorporate(tier, a, b), key) == GetItem(tier, key)
    ensures GetItem(WriteInternal(tier, a, b, c), CorpTokenKey) == GetItem(tier, CorpTokenKey)
    ensures GetItem(WriteCorporate(tier, a, b), UserKey) == GetItem(tier, UserKey)
  {
  }

  /** The arguments of `loginCorporate`, in either calling convention:
      `(token, account, remember)` or `({ token, account }, remember)`. */
  datatype CorporateCall =
    | Positional(token: Option<string>, account: Option<RawAccount>, remember: Option<bool>)
    | Bundled(bundle: TokenBundle, rememberArg: Option<bool>)

  datatype TokenBundle = TokenBundle(token: Option<string>, account: Option<RawAccount>)

  /** `if (typeof remember === 'undefined') remember = true`. */
  function Durable(remember: Option<bool>): bool {
    match remember
    case Some(b) => b
    case None => true
  }

  /** The token, account and tier choice a call comes down to; an omitted
      `remember` means durable storage. */
  function Normalise(call: CorporateCall): (r: (Option<string>, Option<RawAccount>, bool))
    ensures call.Positional? ==> r == (call.token, call.account, call.remember != Some(false))
    ensures call.Bundled? ==> r == (call.bundle.token, call.bundle.account, call.rememberArg != Some(false))
  {
    match call
    case Positional(token, account, remember) => (token, account, Durable(remember))
    case Bundled(TokenBundle(token, account), remember) => (token, account, Durable(remember))
  }

  /** The two conventions mean the same thing. */
  lemma ConventionsAgree(t: Option<string>, a: Option<RawAccount>, r: Option<bool>)
    ensures Normalise(Positional(t, a, r)) == Normalise(Bundled(TokenBundle(t, a), r))
    ensures Normalise(Positional(t, a, None)).2
  {
  }

  /** A corporate account re-read from its stored record normalises to itself. */
  lemma {:induction false} CorporateRecordStable(a: RawAccount)
    ensures CleanCorp(AccountOfCells(CorpDoc(CleanCorp(a)).cells)) == CleanCorp(a)
  {
    var u := CleanCorp(a);
    var c := CorpDoc(u).cells;
    assert CellAt(c, 0) == a.id;
    assert CellAt(c, 2) == Some(u.hrName) && CellAt(c, 5) == Some(u.companyName);
    assert CellAt(c, 3) == Some(u.email) && CellAt(c, 4) == Some(u.mobile) && CellAt(c, 6) == Some(u.designation);
  }

  /** An internal user re-read from its stored record normalises to itself
      exactly when its name no longer ends in " LG": a reload strips again. */
  lemma {:induction false} InternalRecordStable(raw: RawUser)
    ensures var u := CleanUser(raw);
      CleanUser(UserOfCells(UserDoc(u).cells)) == u <==> !EndsWithLg(u.name)
  {
    var u := CleanUser(raw);
    var c := UserDoc(u).cells;
    assert CellAt(c, 0) == raw.id && CellAt(c, 1) == Some(u.name);
    assert CellAt(c, 2) == Some(u.email) && CellAt(c, 3) == u.reportsTo;
    var again := CleanUser(UserOfCells(c));
    if EndsWithLg(u.name) {
      assert |again.name| < |u.name| || again.name == "User";
      assert !EndsWithLg("User");
    }
  }

  /** The counterexample: a name with two trailing " LG"s loses the second one on reload. */
  lemma DoubleLgShrinksOnReload()
    ensures var u := CleanUser(RawUser(None, Some("Asha LG LG"), None, None));
      u.name == "Asha LG" && CleanUser(UserOfCells(UserDoc(u).cells)).name == "Asha"
  {
    var u := CleanUser(RawUser(None, Some("Asha LG LG"), None, None));
    assert EndsWithLg("Asha LG LG");
    assert u.name == "Asha LG";
    var c := UserDoc(u).cells;
    assert CellAt(c, 1) == Some("Asha LG");
    assert EndsWithLg("Asha LG");
  }

  /** After a corporate login with a non-empty token, a reload restores the same
      user, provided no internal triple is stored beside it and, for a per-tab
      login, no corporate keys sit in the durable tier above it. */
  lemma CorporateReloadRestores(local: map<string, string>, session: map<string, string>,
                                token: string, a: RawAccount, durable: bool)
    requires token != ""
    requires !InternalTriple(ReadKeys(local, session)) && ParseIfPresent(ReadKey(local, session, UserKey)).Some?
    requires !durable ==> GetItem(local, CorpTokenKey) == "" && GetItem(local, CorpAccountKey) == ""
    ensures var accStr := Serialize(CorpDoc(CleanCorp(a)));
      var l := if durable then WriteCorporate(local, token, accStr) else local;
      var s := if durable then session else WriteCorporate(session, token, accStr);
      Restore(ReadKeys(l, s)) == Restored(token, CorporateRole, CleanCorp(a))
  {
    var accStr := Serialize(CorpDoc(CleanCorp(a)));
    CorporateKeysRead(local, session, token, accStr, durable);
    RestoreCorporate(ReadKeys(local, session), token, a);
  }

  /** After a corporate write, hydration reads the written corporate keys and
      the internal keys as they were. */
  lemma CorporateKeysRead(local: map<string, string>, session: map<string, string>,
                          token: string, accStr: string, durable: bool)
    requires token != "" && accStr != ""
    requires !durable ==> GetItem(local, CorpTokenKey) == "" && GetItem(local, CorpAccountKey) == ""
    ensures var l := if durable then WriteCorporate(local, token, accStr) else local;
      var s := if durable then session else WriteCorporate(session, token, accStr);
      ReadKeys(l, s) == ReadKeys(local, session).(corpToken := token, corpAccount := accStr)
  {
    if durable {
      var l := WriteCorporate(local, token, accStr);
      assert ReadKey(l, session, TokenKey) == ReadKey(local, session, TokenKey);
      assert ReadKey(l, session, RoleKey) == ReadKey(local, session, RoleKey);
      assert ReadKey(l, session, UserKey) == ReadKey(local, session, UserKey);
    } else {
      var s := WriteCorporate(session, token, accStr);
      assert ReadKey(local, s, TokenKey) == ReadKey(local, session, TokenKey);
      assert ReadKey(local, s, RoleKey) == ReadKey(local, session, RoleKey);
      assert ReadKey(local, s, UserKey) == ReadKey(local, session, UserKey);
    }
  }

  /** Stored corporate keys of a serialised account restore that account when
      no internal triple is stored. */
  lemma RestoreCorporate(k: StoredKeys, token: string, a: RawAccount)
    requires token != "" && !InternalTriple(k) && ParseIfPresent(k.user).Some?
    ensures Restore(k.(corpToken := token, corpAccount := Serialize(CorpDoc(CleanCorp(a))))) ==
      Restored(token, CorporateRole, CleanCorp(a))
  {
    ParseSerialize(CorpDoc(CleanCorp(a)));
    CorporateRecordStable(a);
  }

  /** After an internal login, a reload restores the same token and role and the
      user re-read from the stored record, provided a stored `corp_account`
      parses and, for a per-tab login, the durable tier holds no internal keys. */
  lemma InternalReloadRestores(local: map<string, string>, session: map<string, string>,
                               token: string, role: string, raw: RawUser, durable: bool)
    requires token != "" && role != ""
    requires ParseIfPresent(ReadKey(local, session, CorpAccountKey)).Some?
    requires !durable ==> GetItem(local, TokenKey) == "" && GetItem(local, RoleKey) == "" && GetItem(local, UserKey) == ""
    ensures var u := CleanUser(raw);
      var userStr := Serialize(UserDoc(u));
      var l := if durable then WriteInternal(local, token, role, userStr) else local;
      var s := if durable then session else WriteInternal(session, token, role, userStr);
      Restore(ReadKeys(l, s)) == Restored(token, role, CleanUser(UserOfCells(UserDoc(u).cells)))
  {
    var u := CleanUser(raw);
    var userStr := Serialize(UserDoc(u));
    InternalKeysRead(local, session, token, role, userStr, durable);
    RestoreInternal(ReadKeys(local, session), token, role, u);
  }

  /** After an internal write, hydration reads the written internal keys and
      the corporate keys as they were. */
  lemma InternalKeysRead(local: map<string, string>, session: map<string, string>,
                         token: string, role: string, userStr: string, durable: bool)
    requires token != "" && role != "" && userStr != ""
    requires !durable ==> GetItem(local, TokenKey) == "" && GetItem(local, RoleKey) == "" && GetItem(local, UserKey) == ""
    ensures var l := if durable then WriteInternal(local, token, role, userStr) else local;
      var s := if durable then session else WriteInternal(session, token, role, userStr);
      ReadKeys(l, s) == ReadKeys(local, session).(token := token, role := role, user := userStr)
  {
    if durable {
      var l := WriteInternal(local, token, role, userStr);
      assert ReadKey(l, session, CorpTokenKey) == ReadKey(local, session, CorpTokenKey);
      assert ReadKey(l, session, CorpAccountKey) == ReadKey(local, session, CorpAccountKey);
    } else {
      var s := WriteInternal(session, token, role, userStr);
      assert ReadKey(local, s, CorpTokenKey) == ReadKey(local, session, CorpTokenKey);
      assert ReadKey(local, s, CorpAccountKey) == ReadKey(local, session, CorpAccountKey);
    }
  }

  /** A stored internal triple of a serialised user restores the user re-read
      from its record, whatever corporate keys sit beside it. */
  lemma RestoreInternal(k: StoredKeys, token: string, role: string, u: User)
    requires u.Internal? && token != "" && role != "" && ParseIfPresent(k.corpAccount).Some?
    ensures Restore(k.(token := token, role := role, user := Serialize(UserDoc(u)))) ==
      Restored(token, role, CleanUser(UserOfCells(UserDoc(u).cells)))
  {
    ParseSerialize(UserDoc(u));
  }

  /** After a logout nothing is restored. */
  lemma LogoutRestoresNothing()
    ensures Restore(ReadKeys(map[], map[])) == NoSession
  {
  }

  /** A corporate login reply that has an account but no token is stored with
      the token text "undefined", which a reload then accepts as a session. */
  lemma UndefinedTokenSurvivesReload(a: RawAccount)
    ensures var accStr := Serialize(CorpDoc(CleanCorp(a)));
      !AuthData(None, Some(CorporateRole), Some(CleanCorp(a))).IsAuthenticated() &&
      Restore(ReadKeys(WriteCorporate(map[], StoredText(None), accStr), map[])) ==
        Restored("undefined", CorporateRole, CleanCorp(a))
  {
    CorporateReloadRestores(map[], map[], "undefined", a, true);
  }

  const UseAuthError := "useAuth must be used within an AuthProvider"

  /** `useAuth()`: the context value, or the error thrown outside a provider. */
  function UseAuth<T>(ctx: Option<T>): (r: Result<T, string>)
    ensures r.Success? <==> ctx.Some?
    ensures r.Success? ==> r.value == ctx.value
    ensures r.Failure? ==> r.error == UseAuthError
  {
    match ctx
    case Some(v) => Success(v)
    case None => Failure(UseAuthError)
  }

  /** `AuthProvider`: the identity state and the actions on it. */
  class AuthProvider {
    const store: BrowserStorage
    var authData: AuthData
    var isHydrating: bool

    constructor (store: BrowserStorage)
      ensures this.store == store && authData == SignedOut && isHydrating
    {
      this.store := store;
      authData := SignedOut;
      isHydrating := true;
    }

    function IsAuthenticated(): bool
      reads this
    {
      authData.IsAuthenticated()
    }

    function IsCorporate(): bool
      reads this
    {
      authData.IsCorporate()
    }

    function IsInternal(): bool
      reads this
    {
      authData.IsInternal()
    }

    function GetToken(): Option<string>
      reads this
    {
      authData.authToken
    }

    function GetUser(): Option<User>
      reads this
    {
      authData.user
    }

    function GetRole(): Option<string>
      reads this
    {
      authData.role
    }

    /** The mount effect: restore the identity from storage. It never writes
        to storage, and a parse failure leaves the identity as it was. */
    method Hydrate()
      modifies this
      ensures authData == Installed(Restore(ReadKeys(store.local, store.session)), old(authData))
      ensures !isHydrating
    {
      var k := ReadKeys(store.local, store.session);
      var h := Restore(k);
      if h.Restored? {
        authData := AuthData(Some(h.token), Some(h.role), Some(h.user));
      }
      isHydrating := false;
    }

    /** `login(token, role, user, remember)` for internal staff. */
    method Login(token: string, role: string, user: RawUser, remember: bool)
      modifies this, store
      ensures var u := CleanUser(user);
        var userStr := Serialize(UserDoc(u));
        && store.local == (if remember then WriteInternal(old(store.local), token, role, userStr) else old(store.local))
        && store.session == (if remember then old(store.session) else WriteInternal(old(store.session), token, role, userStr))
        && authData == AuthData(Some(token), Some(role), Some(u))
      ensures isHydrating == old(isHydrating)
    {
      var u := CleanUser(user);
      var userStr := Serialize(UserDoc(u));
      store.SetItem(remember, TokenKey, token);
      store.SetItem(remember, RoleKey, role);
      store.SetItem(remember, UserKey, userStr);
      authData := AuthData(Some(token), Some(role), Some(u));
    }

    /** `loginCorporate`. Without an account it throws at `account.id`, before
        anything is written. */
    method LoginCorporate(call: CorporateCall) returns (threw: bool)
      modifies this, store
      ensures var (token, account, remember) := Normalise(call);
        && (threw <==> account.None?)
        && (threw ==> authData == old(authData) && store.local == old(store.local) && store.session == old(store.session))
        && (!threw ==>
              var u := CleanCorp(account.value);
              var accStr := Serialize(CorpDoc(u));
              && store.local == (if remember then WriteCorporate(old(store.local), StoredText(token), accStr) else old(store.local))
              && store.session == (if remember then old(store.session) else WriteCorporate(old(store.session), StoredText(token), accStr))
              && authData == AuthData(token, Some(CorporateRole), Some(u)))
      ensures isHydrating == old(isHydrating)
    {
      var (token, account, remember) := Normalise(call);
      if account.None? {
        return true;
      }
      var u := CleanCorp(account.value);
      var accStr := Serialize(CorpDoc(u));
      store.SetItem(remember, CorpTokenKey, StoredText(token));
      store.SetItem(remember, CorpAccountKey, accStr);
      authData := AuthData(token, Some(CorporateRole), Some(u));
      return false;
    }

    /** `logout`: both tiers wiped, the identity cleared. */
    method Logout()
      modifies this, store
      ensures store.local == map[] && store.session == map[]
      ensures authData == SignedOut && !IsAuthenticated() && !IsCorporate() && !IsInternal()
      ensures isHydrating == old(isHydrating)
    {
      store.ClearAll();
      authData := SignedOut;
    }
  }
}
