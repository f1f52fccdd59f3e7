# IITGJobs public front-end: access control and forms, modelled in Dafny

This project models the client-side logic of the IITGJobs public React front-end:

- **The auth context.** It keeps the employer's or staff member's session in two browser storage tiers (`localStorage` and `sessionStorage`). It restores the session on mount, and it logs in, logs in a corporate account and logs out.
- **The route guard** in front of every `client/` page.
- **The OTP verification flow** that opens the confidential candidate data, in two copies:
  - the demo page fetches the table into the page;
  - the client page navigates with the company in the query string.
- **The profile search** of the client service page.
- **The validators and small submit state machines** of the employer signup pages (two copies), the employer login pages (two copies), the two contact forms, the recruitment application wizard, and the login modal of the attrition grid.
- **The dashboard greeting.**

The browser and the network become explicit state and parameters:

- **Storage** is a `BrowserStorage` object with a `local` map and a `session` map (`storage.dfy`). The auth context and the pages share it.
- **Every request** is one method. It takes the reply as a `Reply` parameter: a response with its `ok` flag, status, `success` flag, message and data, or a network failure (`http.dfy`).
- **Requests, navigations, notices and toasts** are appended to log fields of the page objects.
- **A `setTimeout` callback** is queued in a `timers` field and run by a separate `RunDeferred` method.
- **`JSON.stringify`/`JSON.parse`** of the stored user records is a concrete encoding with a parser that can fail. `Parse(Serialize(d)) == Some(d)` is proved (`json.dfy`).

Pages whose handlers change state are classes. Their fields are the component's `useState` variables, and a `State()` snapshot lets each method state the whole new state. Validators, normalisers and derivations are functions, with lemmas relating them.

Modules:

| module | file | models |
|---|---|---|
| `Wrappers` | wrappers.dfy | `Option`, `Result` |
| `Text` | text.dfy | `trim`, `\s`, ASCII `toLowerCase`, `includes`, `join`, `split`, decimal rendering and `Number()` |
| `Validators` | validators.dfy | the phone, email and digits patterns |
| `Json` | json.dfy | the stored-record encoding |
| `Storage` | storage.dfy | the two storage tiers |
| `Http` | http.dfy | replies and axios error messages |
| `Auth` | auth.dfy | `src/context/authcontext.jsx` |
| `RouteGuard` | route_guard.dfy | `src/routes/ProtectedRoute.jsx` |
| `Profiles` | profiles.dfy | profile records, table rows, `renderDate` |
| `Access` | access.dfy | the storage keys, company lookup and gates shared by both confidential-data pages |
| `DemoConfidential` | demo_confidential.dfy | `src/components/Client/Demo/ConfidentialData.jsx` |
| `ConfidentialPage` | confidential_page.dfy | `src/pages/ConfidentialData.jsx` |
| `ClientService` | client_service.dfy | `src/pages/ClientService.jsx` |
| `Signup` | signup.dfy | the signup form shared by both signup pages |
| `StagedSignup` | signup_staged.dfy | `src/components/Public/other/EmployerSignupPage.jsx` |
| `PageSignup` | signup_page.dfy | `src/pages/EmployerSignupPage.jsx` |
| `EmployerLogin` | employer_login.dfy | both `EmployerLoginPage.jsx` copies |
| `ContactUs` | contact_us.dfy | `src/components/Public/other/ContactUs.jsx` |
| `ContactForm` | contact_form.dfy | `src/components/ContactForm.jsx` |
| `ApplicationForm` | application_form.dfy | `src/components/Public/other/ApplicationForm.jsx` |
| `AttritionGrid` | attrition_grid.dfy | `src/components/Client/Demo/AttritationGrid.jsx` |
| `Dashboard` | dashboard.dfy | `src/pages/ClientDashboard.jsx` |

Where the code and the repository's description disagree, the model follows the code. The description says an unparsable `corp_account` still hydrates a minimal corporate identity. In the code, both records are parsed before either branch is taken (src/context/authcontext.jsx:20, 25), so any parse failure ends in the `catch` and installs no identity. `Auth.Restore` and `Auth.ParseFailureInstallsNothing` state that behaviour.

## Model

| member | source | states |
|---|---|---|
| Text.Trim | src/pages/EmployerSignupPage.jsx:42 | the trimmed string is no longer than the input |
| Text.TrimEnds | src/pages/EmployerSignupPage.jsx:42 | the result of trim neither starts nor ends with white space |
| Text.TrimPadded | src/pages/EmployerSignupPage.jsx:42 | trim removes only white space, from the two ends |
| Text.TrimIdempotent | src/pages/ClientService.jsx:38 | trimming twice is trimming once |
| Text.TrimNoSpace | src/pages/EmployerSignupPage.jsx:93 | a string with no white space is its own trim |
| Text.TrimEmptyIff | src/pages/ClientService.jsx:38 | trim gives "" exactly for strings made only of white space |
| Text.Lower | src/pages/ClientService.jsx:39 | lowercasing keeps the length and maps each character through the ASCII letter rule |
| Text.ContainsIff | src/pages/ClientService.jsx:53 | `includes` holds exactly when the needle occurs at some index |
| Text.NonEmpty | src/pages/ClientService.jsx:50 | `filter(Boolean)` gives a subsequence of the input holding every copy of each non-empty element and no empty one |
| Text.NonEmptyAppend | src/pages/ClientService.jsx:50 | the filter of a concatenation is the concatenation of the filters, so the kept elements keep their order |
| Text.Split | src/components/Public/other/ApplicationForm.jsx:127 | the pieces hold no separator, at least one exists, and joining them with the separator gives the input back |
| Text.NatToString | src/pages/EmployerLoginPage.jsx:60 | a status renders as non-empty decimal digits without a leading zero |
| Text.DecimalOfNatToString | src/pages/EmployerSignupPage.jsx:100 | `Number()` of a rendered number gives the number back |
| Text.IsSpace | src/pages/EmployerSignupPage.jsx:45 | the characters `\s` matches and `trim` removes: the ECMAScript white space and line terminators |
| Text.IsDigit | src/pages/EmployerSignupPage.jsx:48 | the characters `[0-9]` matches |
| Text.Join | src/pages/ClientService.jsx:51 | `join`: the parts in order, with the separator between neighbours only |
| Text.DecimalValue | src/pages/EmployerSignupPage.jsx:100 | `Number()` of a digit string: its value read in base ten |
| Text.CodeUnits | src/pages/EmployerSignupPage.jsx:49 | a character takes two UTF-16 code units outside the Basic Multilingual Plane and one inside it |
| Text.Utf16Length | src/pages/EmployerSignupPage.jsx:49 | `.length`: at least the number of characters and at most twice it |
| Text.Utf16LengthBmp | src/pages/EmployerSignupPage.jsx:49 | for a string inside the Basic Multilingual Plane, `.length` is the number of characters |
| Text.Utf16LengthAppend | src/pages/EmployerSignupPage.jsx:49 | the length of a concatenation is the sum of the lengths |
| Text.AstralCountsTwice | src/pages/EmployerSignupPage.jsx:49 | one character outside the Basic Multilingual Plane has length 2 |
| Validators.EmailNoSpace | src/pages/EmployerSignupPage.jsx:46 | an address accepted by the anchored pattern contains no white space |
| Validators.EmailTrimmed | src/pages/EmployerSignupPage.jsx:93 | so trimming an accepted address leaves it unchanged |
| Validators.EmailContained | src/pages/EmployerLoginPage.jsx:31 | the unanchored login pattern accepts every address the anchored pattern accepts |
| Validators.PaddedAddress | src/pages/EmployerLoginPage.jsx:31 | the converse fails: " a@b.c" passes the unanchored pattern only |
| Validators.BlankPhone | src/pages/EmployerSignupPage.jsx:45 | seven spaces pass the phone pattern and trim to "" |
| Validators.IsPhone | src/pages/EmployerSignupPage.jsx:45 | the anchored phone pattern: an optional "+", then 7 to 15 digits, white-space characters or hyphens, and nothing else |
| Validators.IsEmail | src/pages/EmployerSignupPage.jsx:46 | the anchored address pattern: the whole string is a run without white space or "@", an "@", such a run, a ".", and such a run |
| Validators.ContainsEmail | src/pages/EmployerLoginPage.jsx:31 | the unanchored address pattern: some substring is an address |
| Validators.IsNumeric | src/pages/EmployerSignupPage.jsx:48 | `/^[0-9]+$/`: a non-empty run of decimal digits |
| Validators.TrimmedAtLeast | src/pages/EmployerSignupPage.jsx:42 | `s.trim().length >= n`, the trimmed length counted in UTF-16 code units as JavaScript counts it |
| Validators.AstralNameLongEnough | src/components/Public/other/ContactUs.jsx:36 | one non-space character outside the Basic Multilingual Plane, such as "😀", meets the two-unit minimum |
| Json.Serialize | src/context/authcontext.jsx:72 | a stored text is never empty, and a record's text starts with `{` |
| Json.ParseQuotedEscape | src/context/authcontext.jsx:20 | an escaped string followed by its closing quote reads back as itself, with the rest left over |
| Json.ParseCellsEncoded | src/context/authcontext.jsx:20 | a record's encoded fields read back as the same fields |
| Json.ParseSerialize | src/context/authcontext.jsx:110 | parsing a stored record gives the record back |
| Json.ParseRejects | src/context/authcontext.jsx:25 | the text "undefined" and a truncated record make the parse fail |
| Json.Parse | src/context/authcontext.jsx:20 | `JSON.parse` of a stored record: "null" or one whole encoded record, and failure for any other text |
| Storage.ReadKey | src/context/authcontext.jsx:17 | the durable value is read when it is non-empty, otherwise the per-tab value; the result is "" only when both are |
| Storage.DurableShadowsSession | src/context/authcontext.jsx:17 | a per-tab write is not seen under a non-empty durable value |
| Storage.BrowserStorage.SetItem | src/context/authcontext.jsx:73-81 | exactly one key of the chosen tier changes, and the other tier is untouched |
| Storage.BrowserStorage.ClearAll | src/context/authcontext.jsx:123-124 | both tiers are emptied |
| Http.StatusCodeMessage | src/pages/ConfidentialData.jsx:34 | axios's rejection text for a status starts with "Request failed with status code " |
| Http.AxiosErrorMessage | src/pages/ConfidentialData.jsx:34 | the shown error is the server's message, else axios's status text for an HTTP error, else the fallback; it is empty only for a network error with an empty fallback |
| Http.Resolved | src/components/Public/other/ContactUs.jsx:95 | a reply counts as a success exactly when it is a response with a 2xx status (`response.ok`, or an axios call that did not reject) |
| Auth.Or | src/context/authcontext.jsx:31 | `x \|\| fallback` gives x when it is present and non-empty, otherwise the fallback |
| Auth.OrNull | src/context/authcontext.jsx:32 | `x \|\| null` is present exactly when x is non-empty |
| Auth.StripLg | src/context/authcontext.jsx:30 | one trailing " LG" is removed; a name without one is unchanged |
| Auth.EndsWithLg | src/context/authcontext.jsx:30 | the name ends in " LG", the text `/ LG$/` matches |
| Auth.CleanUser | src/context/authcontext.jsx:28-33 | the name loses one trailing " LG" and defaults to "User"; the email defaults to ""; an empty reportsTo becomes null; the id is kept |
| Auth.CleanCorp | src/context/authcontext.jsx:101-109 | the name is hrName, else companyName, else "Employer"; every other missing field becomes ""; the id is kept |
| Auth.Restore | src/context/authcontext.jsx:14-62 | hydration fails exactly when a present record does not parse; a restored non-corporate session implies a complete internal triple; a restored session has a token |
| Auth.ReadKeys | src/context/authcontext.jsx:17-24 | each of the five keys is read from the durable tier first, then the per-tab tier |
| Auth.ParseIfPresent | src/context/authcontext.jsx:20 | an empty stored text reads as `null` without parsing; any other text is parsed |
| Auth.InternalTriple | src/context/authcontext.jsx:27 | the internal branch is taken when token and role are non-empty and the user text parses to a record |
| Auth.InternalPrecedence | src/context/authcontext.jsx:27-34 | a complete internal triple restores the internal user, and adding a corporate token without an account record does not change that |
| Auth.LenientCorporate | src/context/authcontext.jsx:35-54 | a corporate token without an account record restores role "corporate" with name "Employer", no id and every other field "" |
| Auth.ParseFailureInstallsNothing | src/context/authcontext.jsx:57-61 | a record that does not parse leaves the in-memory identity as it was |
| Auth.NullAccountRestoresNothing | src/context/authcontext.jsx:35 | an account record holding `null` is neither an account nor absent, so nothing corporate is restored |
| Auth.RolesExclusive | src/context/authcontext.jsx:139-140 | an identity is never both corporate and internal; with a role it is one of them, and without a role it is neither |
| Auth.Installed | src/context/authcontext.jsx:34 | a restored session is authenticated exactly when its token is non-empty, and corporate exactly when its role is "corporate"; otherwise the identity is kept |
| Auth.NamespacesDisjoint | src/context/authcontext.jsx:73-81 | writing the internal keys leaves every other key, the corporate ones included, as it was, and vice versa |
| Auth.Normalise | src/context/authcontext.jsx:87-99 | both calling conventions come down to token, account and durability; an omitted remember means durable |
| Auth.ConventionsAgree | src/context/authcontext.jsx:93-99 | the positional and the bundled call mean the same; omitting remember chooses durable storage |
| Auth.CorporateRecordStable | src/context/authcontext.jsx:37-45 | a normalised account re-read from its stored record normalises to itself |
| Auth.InternalRecordStable | src/context/authcontext.jsx:28-33 | a normalised user re-read from its stored record normalises to itself exactly when its name no longer ends in " LG" |
| Auth.DoubleLgShrinksOnReload | src/context/authcontext.jsx:30 | a name ending in " LG LG" is stored as "… LG" and reloads with the second " LG" stripped as well |
| Auth.CorporateReloadRestores | src/context/authcontext.jsx:111-117 | after a corporate login with a non-empty token and no stored internal triple, a reload restores the same user; for a per-tab login this also needs no corporate keys in the durable tier |
| Auth.CorporateKeysRead | src/context/authcontext.jsx:23-24 | after a corporate write, hydration reads the written corporate keys and the internal keys as they were |
| Auth.RestoreCorporate | src/context/authcontext.jsx:35-54 | stored corporate keys of a serialised account restore that account when no internal triple is stored |
| Auth.InternalReloadRestores | src/context/authcontext.jsx:73-81 | after an internal login, a reload restores the token, the role and the re-read user, provided a stored account record parses |
| Auth.InternalKeysRead | src/context/authcontext.jsx:17-19 | after an internal write, hydration reads the written internal keys and the corporate keys as they were |
| Auth.RestoreInternal | src/context/authcontext.jsx:27-34 | a stored internal triple restores the user re-read from its record, provided a stored account record parses |
| Auth.LogoutRestoresNothing | src/context/authcontext.jsx:122-126 | after logout, hydration restores no session |
| Auth.UndefinedTokenSurvivesReload | src/context/authcontext.jsx:112 | a corporate login without a token is unauthenticated in memory, yet the stored text "undefined" restores a session on reload |
| Auth.UseAuth | src/context/authcontext.jsx:151-155 | outside a provider the hook fails with its message; inside, it returns the context |
| Auth.WriteInternal | src/context/authcontext.jsx:73-81 | the three internal keys of one tier are set to token, role and the user text; no other key changes |
| Auth.WriteCorporate | src/context/authcontext.jsx:111-117 | the two corporate keys of one tier are set to the token and the account text; no other key changes |
| Auth.StoredText | src/context/authcontext.jsx:112 | `setItem` of a missing token stores the text "undefined" |
| Auth.AuthProvider.IsAuthenticated | src/context/authcontext.jsx:138 | `!!authToken`: a non-empty token |
| Auth.AuthProvider.IsCorporate | src/context/authcontext.jsx:139 | the role is "corporate" |
| Auth.AuthProvider.IsInternal | src/context/authcontext.jsx:140 | a role that is present and is not "corporate" |
| Auth.AuthProvider.GetToken | src/context/authcontext.jsx:142 | the held token |
| Auth.AuthProvider.GetUser | src/context/authcontext.jsx:143 | the held user |
| Auth.AuthProvider.GetRole | src/context/authcontext.jsx:144 | the held role |
| Auth.AuthProvider.constructor | src/context/authcontext.jsx:6-11 | the identity starts signed out and hydrating |
| Auth.AuthProvider.Hydrate | src/context/authcontext.jsx:14-62 | the identity becomes what `Restore` concludes from the stored keys, storage is not written, and hydration ends |
| Auth.AuthProvider.Login | src/context/authcontext.jsx:65-83 | the three internal keys go to the tier remember chooses, the other tier is untouched, and the identity becomes the normalised user |
| Auth.AuthProvider.LoginCorporate | src/context/authcontext.jsx:87-119 | without an account the call throws before any write; otherwise the two corporate keys go to the chosen tier and the identity becomes the normalised account with role "corporate" |
| Auth.AuthProvider.Logout | src/context/authcontext.jsx:122-126 | both tiers are emptied, and the identity is signed out and neither corporate nor internal |
| RouteGuard.Decide | src/routes/ProtectedRoute.jsx:19-35 | nothing while hydrating; unauthenticated goes to corporateRedirectTo or redirectTo; non-corporate goes to corporateRedirectTo when required; Outlet exactly when hydrated, authenticated and corporate if required |
| RouteGuard.DecideFor | src/routes/ProtectedRoute.jsx:19-35 | the guard fed with the flags the context derives from an identity |
| RouteGuard.ClientPagesNeedCorporateSession | src/App.jsx:29 | after hydration the client pages render exactly for a non-empty token with role "corporate", and otherwise redirect to /employer/login |
| RouteGuard.SignedOutIsRedirected | src/routes/ProtectedRoute.jsx:26-28 | a signed-out visitor is sent to /employer/login on client pages and to "/" with the default props |
| RouteGuard.InternalSessionIsRedirected | src/routes/ProtectedRoute.jsx:31-33 | an internal staff session does not open the client pages |
| RouteGuard.RestoredCorporateSessionRenders | src/routes/ProtectedRoute.jsx:35 | a corporate session restored from storage opens the client pages |
| Profiles.ToRow | src/components/Client/Demo/ConfidentialData.jsx:89-98 | designation falls back from current to plain designation and company likewise; name, location and the four dates are kept |
| Profiles.ToRows | src/components/Client/Demo/ConfidentialData.jsx:89 | one row per record, same length, same order |
| Profiles.ToRowsAppend | src/components/Client/Demo/ConfidentialData.jsx:89 | mapping a concatenation maps each part |
| Profiles.RenderDate | src/components/Client/Demo/ConfidentialData.jsx:108-116 | a mark is drawn exactly when the value contains "✓", red exactly when the lowercased value also contains "red" |
| Profiles.RedNeedsTick | src/components/Client/Demo/ConfidentialData.jsx:112-115 | "red" alone draws nothing, "✓ RED" draws a red mark and "✓" a plain one |
| Profiles.ViewForPath | src/components/Client/Demo/ConfidentialData.jsx:120 | the demo table exactly when the path contains "/client/demo", the service table otherwise |
| Access.KeysDistinct | src/components/Client/Demo/ConfidentialData.jsx:48-61 | the per-company, global and last-company keys of one address never coincide |
| Access.VerifiedKeyAmbiguous | src/components/Client/Demo/ConfidentialData.jsx:61 | an address containing ':' shares its per-company key with another address and company |
| Access.FirstIndex | src/pages/ConfidentialData.jsx:75 | the index found is the first company with the id, and none is found only when no company has it |
| Access.FindCompany | src/pages/ConfidentialData.jsx:75 | `find` gives the first company with the id, and nothing exactly when none has it |
| Access.CompanyNameFor | src/pages/ConfidentialData.jsx:76 | the name is the found company's companyName, else its name, else "" |
| Access.FirstCompanyWins | src/pages/ConfidentialData.jsx:75-76 | a company listed twice is named after its first entry |
| Access.QueryFor | src/pages/ConfidentialData.jsx:77-78 | the query carries the company id, and the company name exactly when it is non-empty |
| Access.VerificationSync | src/components/Client/Demo/ConfidentialData.jsx:46-68 | `globalVerified` is raised exactly with an address and the global mark, and implies `verified`; otherwise `verified` holds exactly with an address, a company and its per-company mark; the message says which mark was found, and only when verified; a company is preset exactly under the global mark with a stored last company, and it is that company |
| Access.SyncStable | src/pages/ConfidentialData.jsx:43-65 | rerunning the effect after the company it preset changes nothing more |
| Access.GlobalMarkPinsCompany | src/pages/ConfidentialData.jsx:47-55 | with the global mark stored, the effect moves the company back to the last stored one whatever company it ran for, and keeps the chosen one only when none is stored |
| Access.VerifiedNeedsMark | src/pages/ConfidentialData.jsx:43-65 | the visitor is verified exactly when there is an address and a global or per-company mark "1" |
| Access.StoreVerification | src/pages/ConfidentialData.jsx:114-121 | the per-company, global and last-company keys are written, in that order, to the durable tier only |
| Access.VerifyWritesRemembered | src/components/Client/Demo/ConfidentialData.jsx:167-174 | after a verification each key reads back what was written, and the next visit is verified for every company with the company preset |
| Access.LogoutForgetsVerification | src/components/Client/Demo/ConfidentialData.jsx:45 | once storage is wiped, nobody is verified |
| Access.EmailOf | src/pages/ConfidentialData.jsx:14 | `user?.email \|\| ""` |
| Access.VerifiedKey | src/pages/ConfidentialData.jsx:58 | the per-company key "public_access_verified:" + email + ":" + company |
| Access.GlobalKey | src/pages/ConfidentialData.jsx:45 | the global key "public_access_verified_global:" + email |
| Access.LastKey | src/pages/ConfidentialData.jsx:52 | the last-company key "public_access_last_company:" + email |
| Access.SyncedCompany | src/pages/ConfidentialData.jsx:54 | the company after the effect: the preset one when it set one, otherwise unchanged |
| Access.VerifyWrites | src/pages/ConfidentialData.jsx:115-120 | the durable tier after the three writes, in their order |
| Access.SendEnabled | src/pages/ConfidentialData.jsx:224 | Send OTP is enabled exactly with a company, an address and no send under way |
| Access.SubmitEnabled | src/pages/ConfidentialData.jsx:238 | Submit is enabled exactly with a code, a company, an address and no verification under way |
| Access.OtpControlsShown | src/pages/ConfidentialData.jsx:220 | the OTP controls are drawn exactly while not verified for every company |
| Access.GatesNeedAddress | src/pages/ConfidentialData.jsx:220-238 | either enabled button implies a session address, and an enabled Submit implies an enabled Send |
| Access.CompaniesFrom | src/pages/ConfidentialData.jsx:32 | the company list is `data.data` when it is an array, otherwise empty |
| DemoConfidential.DeferredView | src/components/Client/Demo/ConfidentialData.jsx:180 | the deferred fetch uses the demo view when the target path asks for it, else the view on screen, else the service view |
| DemoConfidential.Fetched | src/components/Client/Demo/ConfidentialData.jsx:82-101 | the error is empty exactly for an ok reply without `success === false`; with an error there are no rows; otherwise the array's records become rows, and non-array data gives none |
| DemoConfidential.AfterSync | src/components/Client/Demo/ConfidentialData.jsx:46-68 | the page state after the effect's setters: `verified`, `globalVerified` only raised, `message` and `companyId` only when set |
| DemoConfidential.ConfidentialDemo.constructor | src/components/Client/Demo/ConfidentialData.jsx:14-43 | mounting requests the company list and runs the verification effect once |
| DemoConfidential.ConfidentialDemo.RunVerificationEffect | src/components/Client/Demo/ConfidentialData.jsx:46-68 | the state becomes the verification sync of the stored marks; globalVerified is set, never cleared |
| DemoConfidential.ConfidentialDemo.CompaniesLoaded | src/components/Client/Demo/ConfidentialData.jsx:31-41 | a 2xx reply installs the company list; otherwise only the message changes |
| DemoConfidential.ConfidentialDemo.SelectCompany | src/components/Client/Demo/ConfidentialData.jsx:279 | choosing another company reruns the effect on it; the same company changes nothing; with the global mark and a last company stored, the choice snaps back to that company |
| DemoConfidential.ConfidentialDemo.SetOtp | src/components/Client/Demo/ConfidentialData.jsx:300 | only the code changes |
| DemoConfidential.ConfidentialDemo.CloseModal | src/components/Client/Demo/ConfidentialData.jsx:316 | only the modal closes |
| DemoConfidential.ConfidentialDemo.FetchData | src/components/Client/Demo/ConfidentialData.jsx:70-105 | the profiles request for the view and query is logged, and the rows and the table error become those of the reply |
| DemoConfidential.ConfidentialDemo.Proceed | src/components/Client/Demo/ConfidentialData.jsx:118-142 | the view follows the path; verified with a known company, the company is remembered and the table fetched without the modal; otherwise the target is set and the modal opened |
| DemoConfidential.ConfidentialDemo.SendOtp | src/components/Client/Demo/ConfidentialData.jsx:144-156 | without an address it fails locally with no request; otherwise the request is logged and the message reports the outcome |
| DemoConfidential.ConfidentialDemo.VerifyOtp | src/components/Client/Demo/ConfidentialData.jsx:158-194 | without an address no request; on success the three marks are stored, verified and the message set, and with a company the deferred step queued; globalVerified never changes; any other outcome changes only the message |
| DemoConfidential.ConfidentialDemo.RunDeferred | src/components/Client/Demo/ConfidentialData.jsx:179-184 | the queued step sets the view, fetches its table for the captured company and closes the modal |
| DemoConfidential.ConfidentialDemo.Refresh | src/components/Client/Demo/ConfidentialData.jsx:328-335 | while a table shows, its view is refetched for the chosen or last stored company; with neither, nothing happens |
| DemoConfidential.ConfidentialDemo.TableShown | src/components/Client/Demo/ConfidentialData.jsx:323 | the table is drawn exactly once a view is chosen |
| DemoConfidential.ConfidentialDemo.SendButtonEnabled | src/components/Client/Demo/ConfidentialData.jsx:292 | Send OTP is enabled exactly with a company and an address (no send is under way between handler calls) |
| DemoConfidential.ConfidentialDemo.SubmitButtonEnabled | src/components/Client/Demo/ConfidentialData.jsx:306 | Submit is enabled exactly with a code, a company and an address |
| DemoConfidential.ConfidentialDemo.OtpControlsVisible | src/components/Client/Demo/ConfidentialData.jsx:288 | the OTP controls are drawn exactly while `globalVerified` is false |
| ConfidentialPage.ConfidentialDataPage.constructor | src/pages/ConfidentialData.jsx:15-40 | mounting requests the company list and runs the verification effect once |
| ConfidentialPage.ConfidentialDataPage.RunVerificationEffect | src/pages/ConfidentialData.jsx:43-65 | the state becomes the verification sync of the stored marks |
| ConfidentialPage.ConfidentialDataPage.CompaniesLoaded | src/pages/ConfidentialData.jsx:28-38 | a 2xx reply installs the company list; otherwise only the message changes |
| ConfidentialPage.ConfidentialDataPage.SelectCompany | src/pages/ConfidentialData.jsx:211 | choosing another company reruns the effect on it; the same company changes nothing; with the global mark and a last company stored, the choice snaps back to that company |
| ConfidentialPage.ConfidentialDataPage.SetOtp | src/pages/ConfidentialData.jsx:232 | only the code changes |
| ConfidentialPage.ConfidentialDataPage.CloseModal | src/pages/ConfidentialData.jsx:248 | only the modal closes |
| ConfidentialPage.ConfidentialDataPage.Proceed | src/pages/ConfidentialData.jsx:67-89 | verified with a known company, the company is remembered and the page navigated to with its query; otherwise only the target is set and the modal opened, with no navigation |
| ConfidentialPage.ConfidentialDataPage.SendOtp | src/pages/ConfidentialData.jsx:91-103 | without an address it fails locally with no request; otherwise the request is logged and the message reports the outcome |
| ConfidentialPage.ConfidentialDataPage.VerifyOtp | src/pages/ConfidentialData.jsx:105-137 | on success the three marks are stored and the navigation queued only with both a target and a company; a failure leaves verified and storage unchanged |
| ConfidentialPage.ConfidentialDataPage.RunDeferred | src/pages/ConfidentialData.jsx:127 | the queued navigation is made |
| ConfidentialPage.ConfidentialDataPage.Continue | src/pages/ConfidentialData.jsx:250-259 | only when verified with a company is the company remembered and the target navigated to; otherwise nothing changes |
| ConfidentialPage.AfterSync | src/pages/ConfidentialData.jsx:43-65 | the page state after the effect's setters, as on the demo page |
| ConfidentialPage.ConfidentialDataPage.ContinueEnabled | src/pages/ConfidentialData.jsx:259 | Continue is enabled exactly when verified with a company |
| ConfidentialPage.ConfidentialDataPage.SendButtonEnabled | src/pages/ConfidentialData.jsx:224 | Send OTP is enabled exactly with a company and an address |
| ConfidentialPage.ConfidentialDataPage.SubmitButtonEnabled | src/pages/ConfidentialData.jsx:238 | Submit is enabled exactly with a code, a company and an address |
| ConfidentialPage.ConfidentialDataPage.OtpControlsVisible | src/pages/ConfidentialData.jsx:220 | the OTP controls are drawn exactly while `globalVerified` is false |
| ClientService.Matching | src/pages/ClientService.jsx:40-54 | the kept profiles are an order-preserving subsequence, and a profile is kept exactly when its text includes the needle |
| ClientService.MatchingCounts | src/pages/ClientService.jsx:40-54 | every copy of a matching profile is kept and no copy of another |
| ClientService.MatchingAppend | src/pages/ClientService.jsx:40-54 | the filter of a concatenation is the concatenation of the filters |
| ClientService.MatchingOne | src/pages/ClientService.jsx:53 | a single profile is kept exactly when its text includes the needle |
| ClientService.Filtered | src/pages/ClientService.jsx:37-55 | a blank query keeps every item; otherwise a subsequence holding every copy of each item whose lowercased text includes the lowercased, untrimmed query, and no copy of any other |
| ClientService.CaseInsensitive | src/pages/ClientService.jsx:39 | the result does not depend on the case of the query's letters |
| ClientService.HaystackOfName | src/pages/ClientService.jsx:41-52 | a profile whose only text is its name is searched in its lowercased name |
| ClientService.FoundByName | src/pages/ClientService.jsx:53 | "Asha" finds the profile named "asha" |
| ClientService.MissedWithSpace | src/pages/ClientService.jsx:39 | " Asha" does not find it: the needle is not trimmed |
| ClientService.PaddedQueryMisses | src/pages/ClientService.jsx:38-39 | the same profile is found by "Asha" and missed by " Asha" |
| ClientService.RequestFor | src/pages/ClientService.jsx:24 | the company id is sent exactly when the route's query holds a non-empty one |
| ClientService.Haystack | src/pages/ClientService.jsx:41-52 | the searched text: the non-empty ones of name, designation, company, location, CTC, email and mobile, joined by one space and lowercased |
| ClientService.Keeps | src/pages/ClientService.jsx:53 | a profile is kept exactly when its searched text includes the needle |
| ClientService.ClientServicePage.constructor | src/pages/ClientService.jsx:13-35 | mounting starts loading and sends the request for the route's company |
| ClientService.ClientServicePage.FetchSettled | src/pages/ClientService.jsx:25-31 | a truthy success installs `data.data` or nothing; any other outcome sets the error and keeps the items; loading ends |
| ClientService.ClientServicePage.SetQuery | src/pages/ClientService.jsx:65 | only the query changes |
| ClientService.ClientServicePage.TableShown | src/pages/ClientService.jsx:74 | the table is drawn exactly when loading is over without an error |
| ClientService.ClientServicePage.NoRecordsShown | src/pages/ClientService.jsx:94 | the "No records found." row is drawn exactly when the table is and the filtered list is empty |
| ClientService.NoRecordsForBlankQuery | src/pages/ClientService.jsx:94 | with a blank query the "No records found." row shows exactly for an empty list |
| Signup.Set | src/pages/EmployerSignupPage.jsx:38 | the edited field takes the value and every other field keeps its own |
| Signup.SetGet | src/pages/EmployerSignupPage.jsx:38 | setting a field to what it holds changes nothing |
| Signup.FieldValid | src/pages/EmployerSignupPage.jsx:42-51 | each field's own check: trimmed length at least 2 for the six text fields, the phone and address patterns, an empty or all-digit strength, and a password of at least 6; lengths are in UTF-16 code units |
| Signup.CanSubmit | src/pages/EmployerSignupPage.jsx:53-63 | `canSubmit`: the ten checks together |
| Signup.CanSubmitIff | src/pages/EmployerSignupPage.jsx:42-63 | the form can be sent exactly when each of the ten field checks passes |
| Signup.PayloadOf | src/pages/EmployerSignupPage.jsx:88-101 | every text field is trimmed except the password, and the strength is sent as a number exactly when it is non-empty |
| Signup.PayloadKeepsAddress | src/components/Public/other/EmployerSignupPage.jsx:103 | the address sent is the one typed, and the trimmed names keep two UTF-16 code units, so neither is empty |
| Signup.PayloadStrength | src/components/Public/other/EmployerSignupPage.jsx:109-111 | a strength typed as the digits of n is sent as n |
| Signup.BlankMobileAccepted | src/components/Public/other/EmployerSignupPage.jsx:53 | a mobile of seven spaces passes the check and is sent as "" |
| Signup.ClearedExceptEmail | src/components/Public/other/EmployerSignupPage.jsx:134-145 | after acceptance every field is "" except the address, which is kept |
| Signup.ClearedFormBlocked | src/pages/EmployerSignupPage.jsx:124-135 | the cleared form cannot be sent again |
| Signup.VerifyEnabledHasCode | src/pages/EmployerSignupPage.jsx:388 | an enabled verify button means a non-empty code, so the handler's empty-code check never stops it |
| Signup.VerifyEnabled | src/pages/EmployerSignupPage.jsx:388 | the verify button is enabled exactly when not verifying and the trimmed code has at least 4 UTF-16 code units |
| Signup.AstralCodeEnablesVerify | src/pages/EmployerSignupPage.jsx:388 | two characters outside the Basic Multilingual Plane, such as "😀😀", enable the verify button |
| Signup.CreateFailedMessage | src/pages/EmployerSignupPage.jsx:115 | "Request failed with status " and the status |
| Signup.VerifyFailedMessage | src/pages/EmployerSignupPage.jsx:162 | "Verification failed (", the status and ")" |
| StagedSignup.StagedSignupPage.constructor | src/components/Public/other/EmployerSignupPage.jsx:29-38 | the page starts in the form stage with empty values |
| StagedSignup.StagedSignupPage.SetField | src/components/Public/other/EmployerSignupPage.jsx:46 | only the edited field changes |
| StagedSignup.StagedSignupPage.Blur | src/components/Public/other/EmployerSignupPage.jsx:47 | the field is marked touched |
| StagedSignup.StagedSignupPage.Submit | src/components/Public/other/EmployerSignupPage.jsx:73-120 | an invalid form only marks all ten fields touched; a valid one moves to the OTP stage before sending the payload |
| StagedSignup.StagedSignupPage.SubmitSettled | src/components/Public/other/EmployerSignupPage.jsx:122-154 | a refusal or a network error returns to the form with its error; an acceptance stays in the OTP stage and clears everything but the address |
| StagedSignup.StagedSignupPage.SetOtp | src/components/Public/other/EmployerSignupPage.jsx:418-420 | only the code changes; the box's `maxLength` of 6 UTF-16 code units bounds what it receives |
| StagedSignup.StagedSignupPage.VerifyOtp | src/components/Public/other/EmployerSignupPage.jsx:157-194 | nothing without a code and an address; a failure stays in the OTP stage unverified; a success verifies, clears the code and moves to the result |
| StagedSignup.StagedSignupPage.ChangeEmail | src/components/Public/other/EmployerSignupPage.jsx:434 | back to the form with the code and the error cleared |
| StagedSignup.StagedSignupPage.CloseResult | src/components/Public/other/EmployerSignupPage.jsx:454-465 | verified: home; otherwise a full reset; the result stage is reached only verified, so it always goes home |
| StagedSignup.StagedSignupPage.VerifyButtonEnabled | src/components/Public/other/EmployerSignupPage.jsx:426 | the verify button is enabled exactly when the trimmed code has at least 4 characters |
| StagedSignup.StagedSignupPage.SubmitButtonEnabled | src/components/Public/other/EmployerSignupPage.jsx:392 | the submit button is enabled exactly when the form passes and no request is loading |
| PageSignup.SignupPage.constructor | src/pages/EmployerSignupPage.jsx:21-30 | the page starts with empty values and no OTP box |
| PageSignup.SignupPage.SetField | src/pages/EmployerSignupPage.jsx:38 | only the edited field changes |
| PageSignup.SignupPage.Blur | src/pages/EmployerSignupPage.jsx:39 | the field is marked touched |
| PageSignup.SignupPage.Submit | src/pages/EmployerSignupPage.jsx:65-110 | an invalid form only marks every field touched, with no request; a valid one sends the payload |
| PageSignup.SignupPage.SubmitSettled | src/pages/EmployerSignupPage.jsx:112-144 | a refusal or network error sets its error and submitted false without opening the OTP box; an acceptance opens it and clears everything but the address |
| PageSignup.SignupPage.SetOtp | src/pages/EmployerSignupPage.jsx:382-384 | only the code changes; the box's `maxLength` of 6 UTF-16 code units bounds what it receives |
| PageSignup.SignupPage.VerifyOtp | src/pages/EmployerSignupPage.jsx:147-180 | nothing without a code and an address; a failure leaves the visitor unverified; a success verifies, closes the box and clears the code |
| PageSignup.SignupPage.VerifyButtonEnabled | src/pages/EmployerSignupPage.jsx:388 | the verify button is enabled exactly when the trimmed code has at least 4 characters |
| PageSignup.SignupPage.SubmitButtonEnabled | src/pages/EmployerSignupPage.jsx:364 | the submit button is enabled exactly when the form passes and no request is loading |
| EmployerLogin.ValidateCreds | src/pages/EmployerLoginPage.jsx:34-44 | the errors object has an identifier entry exactly when the identifier is neither an address nor a phone, and a password entry exactly when the password is shorter than 6 |
| EmployerLogin.CredentialsPass | src/components/Public/other/EmployerLoginPage.jsx:43 | the credentials pass exactly when both checks do |
| EmployerLogin.LooserThanSignup | src/components/Public/other/EmployerLoginPage.jsx:31 | every address the signup pattern accepts passes the login check, and so does " a@b.c", which signup refuses |
| EmployerLogin.LoginFailedMessage | src/pages/EmployerLoginPage.jsx:60 | the notice is the server's message, else its error, else "Login failed (status)"; it is never empty |
| EmployerLogin.IdentifierValid | src/pages/EmployerLoginPage.jsx:36 | the identifier passes when an address occurs somewhere in it or the whole of it is a phone number |
| EmployerLogin.PasswordValid | src/pages/EmployerLoginPage.jsx:39 | the password passes when it has at least 6 UTF-16 code units |
| EmployerLogin.AstralPasswordPasses | src/pages/EmployerLoginPage.jsx:39 | three characters outside the Basic Multilingual Plane, such as "😀😀😀", pass the six-unit minimum |
| EmployerLogin.SessionReturned | src/pages/EmployerLoginPage.jsx:67 | `data?.token && data?.account`: a non-empty token and an account |
| EmployerLogin.EmployerLoginPage.constructor | src/pages/EmployerLoginPage.jsx:10-16 | the page starts empty; the copy decides whether a network error shows a notice |
| EmployerLogin.EmployerLoginPage.RedirectEffect | src/pages/EmployerLoginPage.jsx:19-23 | a hydrated, authenticated corporate session is sent to the dashboard; otherwise nothing |
| EmployerLogin.EmployerLoginPage.SetIdentifier | src/pages/EmployerLoginPage.jsx:111 | only the identifier changes |
| EmployerLogin.EmployerLoginPage.SetPassword | src/pages/EmployerLoginPage.jsx:122 | only the password changes |
| EmployerLogin.EmployerLoginPage.SubmitCreds | src/pages/EmployerLoginPage.jsx:46-80 | failing credentials only set the errors and send nothing; the request carries the trimmed identifier and the raw password; a refusal shows its notice and logs nobody in; a network error logs nobody in and shows a notice only in the pages copy; an accepted reply shows the success notice, queues the redirect and, when it holds a token and an account, logs in durably through the positional call |
| EmployerLogin.EmployerLoginPage.RunDeferred | src/pages/EmployerLoginPage.jsx:74 | the queued redirect is made |
| ContactUs.Set | src/components/Public/other/ContactUs.jsx:23 | the edited field takes the value and every other keeps its own |
| ContactUs.ErrorText | src/components/Public/other/ContactUs.jsx:46-52 | every field's error text is non-empty |
| ContactUs.ErrorOf | src/components/Public/other/ContactUs.jsx:45-53 | a field's error is non-empty exactly when its check fails, and is then its text |
| ContactUs.CanSubmitIff | src/components/Public/other/ContactUs.jsx:55-63 | the form can be sent exactly when every error is empty |
| ContactUs.StricterThanShortForm | src/components/Public/other/ContactUs.jsx:35-43 | a message this page accepts passes the landing page's form too, but not conversely |
| ContactUs.FieldValid | src/components/Public/other/ContactUs.jsx:35-43 | each field's check: trimmed name at least 2, company and designation non-blank, subject at least 5, message at least 10, the address pattern, and an empty or matching phone; lengths are in UTF-16 code units |
| ContactUs.CanSubmit | src/components/Public/other/ContactUs.jsx:55-63 | `canSubmit`: the seven checks together |
| ContactUs.ContactUsPage.constructor | src/components/Public/other/ContactUs.jsx:17-20 | the page starts empty with no status |
| ContactUs.ContactUsPage.SetField | src/components/Public/other/ContactUs.jsx:22-28 | the field changes and a shown status is cleared |
| ContactUs.ContactUsPage.CloseSuccess | src/components/Public/other/ContactUs.jsx:354 | closing the success panel resets only the status |
| ContactUs.ContactUsPage.Blur | src/components/Public/other/ContactUs.jsx:30-32 | the field is marked touched |
| ContactUs.ContactUsPage.Submit | src/components/Public/other/ContactUs.jsx:65-114 | an invalid form marks every field touched and shows the invalid status with no request; a valid one is posted as typed; a 2xx reply thanks and resets values and touched marks; anything else marks every field touched, shows the failure and keeps the values |
| ContactUs.ContactUsPage.SuccessShown | src/components/Public/other/ContactUs.jsx:341 | the success panel is drawn exactly when the status is a success |
| ContactUs.ContactUsPage.SubmitEnabled | src/components/Public/other/ContactUs.jsx:273 | the send button is enabled exactly when the form passes (no send is under way between handler calls) |
| ContactUs.ContactUsPage.ErrorShown | src/components/Public/other/ContactUs.jsx:156 | a field's error line is drawn exactly when it was touched and its check fails |
| ContactForm.Set | src/components/ContactForm.jsx:10 | the edited field takes the value and every other keeps its own |
| ContactForm.CanSubmitIff | src/components/ContactForm.jsx:13-18 | the form can be sent exactly when each field check passes |
| ContactForm.BlankMessageBlocked | src/components/ContactForm.jsx:16 | a message of white space never passes, whatever its length |
| ContactForm.FieldValid | src/components/ContactForm.jsx:13-16 | each field's check: the address pattern, an empty or matching phone, trimmed name at least 2 and message at least 10, in UTF-16 code units |
| ContactForm.CanSubmit | src/components/ContactForm.jsx:18 | `canSubmit`: the four checks together |
| ContactForm.ContactFormSection.constructor | src/components/ContactForm.jsx:6-8 | the form starts empty and unsent |
| ContactForm.ContactFormSection.SetField | src/components/ContactForm.jsx:10 | only the edited field changes |
| ContactForm.ContactFormSection.Blur | src/components/ContactForm.jsx:11 | the field is marked touched |
| ContactForm.ContactFormSection.Submit | src/components/ContactForm.jsx:20-27 | all four fields are touched; an invalid form keeps values and flag; a valid one is marked sent and cleared |
| ContactForm.ContactFormSection.SubmitEnabled | src/components/ContactForm.jsx:108 | the send button is enabled exactly when the form passes |
| ApplicationForm.LookupFound | src/components/Public/other/ApplicationForm.jsx:133 | a property read is defined exactly when the form has the key |
| ApplicationForm.LookupAt | src/components/Public/other/ApplicationForm.jsx:160 | the property at a position is the one read when no earlier property has its key |
| ApplicationForm.Lookup | src/components/Public/other/ApplicationForm.jsx:160 | `form[key]`: the value of the first property with the key, or `undefined` |
| ApplicationForm.Keys | src/components/Public/other/ApplicationForm.jsx:158 | `Object.keys`: the keys in property order |
| ApplicationForm.Truthy | src/components/Public/other/ApplicationForm.jsx:133 | JavaScript truthiness: `undefined`, `null`, `""`, `0` and `false` are falsy, arrays, objects and files truthy |
| ApplicationForm.Prop | src/components/Public/other/ApplicationForm.jsx:149 | a property of an object value, and `undefined` on anything else |
| ApplicationForm.Put | src/components/Public/other/ApplicationForm.jsx:115 | the spread update reads back the new value under its key and leaves every other key as it was |
| ApplicationForm.PutKeys | src/components/Public/other/ApplicationForm.jsx:115 | an existing key keeps its place in the key order, and a new key goes last |
| ApplicationForm.SetItemField | src/components/Public/other/ApplicationForm.jsx:117-123 | the array keeps its length; only the element at the index changes, and in it only the named field |
| ApplicationForm.AddItem | src/components/Public/other/ApplicationForm.jsx:125 | the template is appended after the unchanged old elements |
| ApplicationForm.RemoveItem | src/components/Public/other/ApplicationForm.jsx:126 | an index in range drops exactly that element; any other index leaves the array as it is |
| ApplicationForm.RemoveItemShifts | src/components/Public/other/ApplicationForm.jsx:126 | the elements before the index stay put and the later ones move down by one |
| ApplicationForm.Languages | src/components/Public/other/ApplicationForm.jsx:127 | every language read from the text is non-empty, unpadded and comma-free |
| ApplicationForm.SplitJoin | src/components/Public/other/ApplicationForm.jsx:127 | splitting the comma-joined text of comma-free pieces gives the pieces back |
| ApplicationForm.LanguagesRoundTrip | src/components/Public/other/ApplicationForm.jsx:366-367 | a list of languages shown joined by ", " and read back gives the same list |
| ApplicationForm.NoLanguages | src/components/Public/other/ApplicationForm.jsx:127 | an empty field holds no languages |
| ApplicationForm.Language | src/components/Public/other/ApplicationForm.jsx:127 | a stored language is non-empty, trimmed and free of commas |
| ApplicationForm.SubmitCheck | src/components/Public/other/ApplicationForm.jsx:133-152 | no stop exactly when every check passes; each stop goes to step 0 or 1; a missing personal field stops at step 1 first, then a missing application type at step 0 |
| ApplicationForm.PersonalComplete | src/components/Public/other/ApplicationForm.jsx:133 | full name, email, mobile number and date of birth are all truthy |
| ApplicationForm.IsCollege | src/components/Public/other/ApplicationForm.jsx:149 | the application type is exactly "college" |
| ApplicationForm.EducationCategoryComplete | src/components/Public/other/ApplicationForm.jsx:149 | the education category and its category, college type and details are all truthy |
| ApplicationForm.Submittable | src/components/Public/other/ApplicationForm.jsx:133-152 | every check passes, the education category only for a college application |
| ApplicationForm.CategoryOnlyForColleges | src/components/Public/other/ApplicationForm.jsx:149 | for an application other than a college one, the education category does not affect the checks |
| ApplicationForm.SameChecks | src/components/Public/other/ApplicationForm.jsx:133-152 | two non-college forms that agree on every property but the education category meet the same check |
| ApplicationForm.AppendedText | src/components/Public/other/ApplicationForm.jsx:161-163 | null is sent as "", arrays, objects and files as their JSON, and a string as itself |
| ApplicationForm.Stringify | src/components/Public/other/ApplicationForm.jsx:162 | `JSON.stringify` of a form value: never empty; strings quoted and escaped, arrays and objects bracketed, a file as `{}` |
| ApplicationForm.FileEntries | src/components/Public/other/ApplicationForm.jsx:155-156 | at most two upload entries, each under photo or resume |
| ApplicationForm.FilesSentWhenSet | src/components/Public/other/ApplicationForm.jsx:155-156 | each upload is sent, as its file, exactly when it is set |
| ApplicationForm.LoopEntriesIff | src/components/Public/other/ApplicationForm.jsx:157-164 | the loop appends an entry exactly for each property other than the uploads, with that property's text, and never an upload |
| ApplicationForm.EntryOf | src/components/Public/other/ApplicationForm.jsx:159-163 | one property adds nothing when it is an upload key, else one text entry under its key |
| ApplicationForm.LoopEntries | src/components/Public/other/ApplicationForm.jsx:158-164 | what the `forEach` over the keys appends, property by property in key order |
| ApplicationForm.AppendUploads | src/components/Public/other/ApplicationForm.jsx:155-156 | the uploads appended are those `FileEntries` specifies |
| ApplicationForm.AppendFields | src/components/Public/other/ApplicationForm.jsx:158-164 | the `forEach` appends `LoopEntries` of the form to what was there |
| ApplicationForm.BuildFormData | src/components/Public/other/ApplicationForm.jsx:154-164 | the multipart body is the uploads followed by the loop's entries |
| ApplicationForm.ReviewUnreachableAsWritten | src/components/Public/other/ApplicationForm.jsx:424 | no reachable step renders the review section as written |
| ApplicationForm.ReviewReached | src/components/Public/other/ApplicationForm.jsx:18-27 | seven presses of Next reach the last step, "Review", where the corrected review renders |
| ApplicationForm.ReviewShownAsWritten | src/components/Public/other/ApplicationForm.jsx:424 | as written, the review section is drawn at step 8 |
| ApplicationForm.ReviewShown | src/components/Public/other/ApplicationForm.jsx:26 | as intended, the review section is drawn at the last step, "Review" |
| ApplicationForm.Min | src/components/Public/other/ApplicationForm.jsx:236 | `Math.min` of two integers |
| ApplicationForm.InitialFormStops | src/components/Public/other/ApplicationForm.jsx:52-100 | a fresh form is sent back to step 1 with the personal-fields toast |
| ApplicationForm.ApplicationFormPage.constructor | src/components/Public/other/ApplicationForm.jsx:41-102 | the wizard starts at step 0 with the initial form |
| ApplicationForm.ApplicationFormPage.SetField | src/components/Public/other/ApplicationForm.jsx:115 | only the form changes, by the spread update; the step stays in range |
| ApplicationForm.ApplicationFormPage.FileChanged | src/components/Public/other/ApplicationForm.jsx:128 | the key holds the chosen file or null |
| ApplicationForm.ApplicationFormPage.LanguagesChanged | src/components/Public/other/ApplicationForm.jsx:127 | the languages property becomes the list read from the text |
| ApplicationForm.ApplicationFormPage.SetNestedArrayItem | src/components/Public/other/ApplicationForm.jsx:117-123 | the array property becomes the array with one field of one row set |
| ApplicationForm.ApplicationFormPage.AddArrayItem | src/components/Public/other/ApplicationForm.jsx:125 | the array property gains the template at its end |
| ApplicationForm.ApplicationFormPage.RemoveArrayItem | src/components/Public/other/ApplicationForm.jsx:126 | the array property loses the row at the index |
| ApplicationForm.ApplicationFormPage.Back | src/components/Public/other/ApplicationForm.jsx:223-226 | the button, shown only past step 0, moves exactly one step back |
| ApplicationForm.ApplicationFormPage.Next | src/components/Public/other/ApplicationForm.jsx:233-236 | the button, shown only before the last step, moves one step on, clamped to the last step |
| ApplicationForm.ApplicationFormPage.HandleSubmit | src/components/Public/other/ApplicationForm.jsx:130-178 | a failed check moves to its step with its toast and sends nothing; otherwise the body is posted, and a 2xx reply resets form and step and marks submitted, while a rejection shows the failure toast |
| ApplicationForm.ApplicationFormPage.SubmitAnother | src/components/Public/other/ApplicationForm.jsx:272-278 | the overlay closes and the form and step reset |
| ApplicationForm.ApplicationFormPage.SubmitButtonShown | src/components/Public/other/ApplicationForm.jsx:233 | the Submit button replaces Next exactly from the last step on |
| AttritionGrid.GridLoginFailed | src/components/Client/Demo/AttritationGrid.jsx:40 | the error is the server's message, else "Login failed (status)" |
| AttritionGrid.UnlockedWithoutSession | src/components/Client/Demo/AttritationGrid.jsx:19 | an account with no token unlocks the grid, though the session it leaves is unauthenticated and the client pages redirect it |
| AttritionGrid.Authed | src/components/Client/Demo/AttritationGrid.jsx:19 | `authed`: a corporate role once hydration is over |
| AttritionGrid.Refused | src/components/Client/Demo/AttritationGrid.jsx:39 | a login reply is refused exactly when it is not 2xx or carries `success: false` |
| AttritionGrid.AttritionGridPage.constructor | src/components/Client/Demo/AttritationGrid.jsx:12-16 | the modal starts closed with empty fields |
| AttritionGrid.AttritionGridPage.OpenLogin | src/components/Client/Demo/AttritationGrid.jsx:123 | the modal opens |
| AttritionGrid.AttritionGridPage.CloseLogin | src/components/Client/Demo/AttritationGrid.jsx:171 | the modal closes |
| AttritionGrid.AttritionGridPage.SetEmail | src/components/Client/Demo/AttritationGrid.jsx:152 | only the identifier changes |
| AttritionGrid.AttritionGridPage.SetPassword | src/components/Client/Demo/AttritationGrid.jsx:163 | only the password changes |
| AttritionGrid.AttritionGridPage.AccessConfidential | src/components/Client/Demo/AttritationGrid.jsx:72 | an unlocked grid appends the navigation "/confidential-data", a path src/App.jsx does not route (the confidential-data page is mounted at client/jobs) |
| AttritionGrid.AttritionGridPage.OnLogin | src/components/Client/Demo/AttritationGrid.jsx:21-56 | blank trimmed credentials only set the local error; otherwise the trimmed identifier and trimmed password are sent; a network error or refusal sets its error and logs nobody in; an acceptance logs in through the bundle call (a missing account throws and is swallowed), closes the modal and navigates |
| AttritionGrid.AttritionGridPage.OnLogout | src/components/Client/Demo/AttritationGrid.jsx:58-60 | the context logs out, and the grid locks again |
| AttritionGrid.AttritionGridPage.IsAuthed | src/components/Client/Demo/AttritationGrid.jsx:19 | `authed`, read from the shared context |
| AttritionGrid.AttritionGridPage.OverlayShown | src/components/Client/Demo/AttritationGrid.jsx:117 | the lock overlay is drawn exactly when not `authed` |
| Dashboard.DisplayName | src/pages/ClientDashboard.jsx:28 | the HR name, else the name, else the company name for a corporate session and "Client" otherwise; it is empty only for a corporate session with none of the three |
| Dashboard.HrNameOf | src/pages/ClientDashboard.jsx:28 | `user?.hrName`, which only a corporate record has |
| Dashboard.NameOf | src/pages/ClientDashboard.jsx:28 | `user?.name` |
| Dashboard.CompanyNameOf | src/pages/ClientDashboard.jsx:56 | `user?.companyName`, which only a corporate record has |
| Dashboard.DesignationOf | src/pages/ClientDashboard.jsx:57 | `user?.designation`, which only a corporate record has |
| Dashboard.Greeting | src/pages/ClientDashboard.jsx:29-36 | each greeting holds exactly in its range of hours |
| Dashboard.Heading | src/pages/ClientDashboard.jsx:52 | "Hello", followed by ", name" exactly when the name is non-empty |
| Dashboard.CorporateHeadingNamed | src/pages/ClientDashboard.jsx:28 | an identity the guard lets onto the dashboard, whose user is a normalised or minimal corporate account, is corporate and greeted by a non-empty name |
| Dashboard.InternalGreetedByName | src/pages/ClientDashboard.jsx:28 | a normalised internal user is greeted by its normalised name |
| Dashboard.CompanyLine | src/pages/ClientDashboard.jsx:56-57 | the company name or "Your company", followed by a bullet and the designation only when there is one |
| Dashboard.WrittenCompanyLine | src/pages/ClientDashboard.jsx:57 | as written, a designation follows the three characters "â€¢" |
| Dashboard.Utf8Of | src/pages/ClientDashboard.jsx:57 | a character of the three-byte range encodes as three bytes |
| Dashboard.Cp1252 | src/pages/ClientDashboard.jsx:57 | a byte outside 0x80–0x9F reads as the character of the same code |
| Dashboard.SeparatorMojibake | src/pages/ClientDashboard.jsx:57 | the written separator is the bullet's UTF-8 bytes read as Windows-1252, and the line it draws differs from the intended one |
| Dashboard.CompanyLineShape | src/pages/ClientDashboard.jsx:56-57 | the corrected line is the prefix, exactly " • ", then the designation, with "Your company" as the fallback prefix |

## Left out

- Network requests are not performed. Each handler takes the reply as a parameter and runs to completion in one method. The `loading`, `sending`, `verifying` and `isSubmitting` flags therefore read false between calls. The model keeps `loading` only where the settle step is a method of its own: the two signup pages and the client service page.
- The state a handler sets before its request and overwrites afterwards is not kept as a separate step. Examples: `setMessage("")`, and `fetchData` clearing the rows and the table error.
- Timers carry no time. A `setTimeout` callback is queued and runs when `RunDeferred` is called. The toast lifetime and the 400 ms and 600 ms delays are not modelled.
- The session address of both confidential-data pages is fixed when the page object is made. The source rereads `user?.email` on every render and reruns the verification effect when it changes (src/pages/ConfidentialData.jsx:14, 65), so a login or logout while the page is mounted is not modelled.
- Overlapping requests, replies arriving after unmount, cross-tab storage events and React's batching of state updates are not modelled.
- `encodeURIComponent` is not modelled. A navigation records the company id and name as a structured query (`Access.CompanyQuery`) rather than escaped text.
- `toLowerCase` is modelled on the ASCII letters only. Unicode case mapping is not modelled.
- Profile fields are taken to be strings. A numeric `ctc` from the server would be dropped by `filter(Boolean)` when 0 and rendered as decimal text otherwise (src/pages/ClientService.jsx:46-51); that is not modelled.
- Auth.AuthProvider.Login: takes the role as a string. A call with an undefined role would store the text "undefined", which reads back as an internal role (src/context/authcontext.jsx:140); no caller makes such a call, and it is not modelled.
- `JSON.stringify` and `JSON.parse` of the two stored records are modelled by one self-delimiting encoding of flat records with optional string fields. Records of any other shape, and the exact JSON text, are not modelled.
- ApplicationForm.Stringify: escapes only quotes and backslashes, not control characters, and prints numbers as decimal integers only, because the form holds no other numbers.
- `Number()` is modelled only on digit strings, which is what the strength validator admits. Floating point is not modelled.
- The hour of the day is an input to `Dashboard.Greeting`. `new Date()` is not modelled.
- Toasts and notices of the two signup pages are not logged. The page state records the same messages in `error` and `successMsg`.
- ApplicationForm.ApplicationFormPage.SetNestedArrayItem: requires the row to exist and to be an object. The source also writes past the end of the array or onto a non-object, and that case is not modelled.
- ApplicationForm.ApplicationFormPage.AddArrayItem and ApplicationForm.ApplicationFormPage.RemoveArrayItem: require the property to be an array, as every caller in the wizard ensures. Applying them to other values would throw in the source, and that is not modelled.
- The markup of the wizard's intermediate steps is not part of this model. The file elides it, and no control shown there sets `applicationType`. Only the updaters those steps would call are modelled.
- Rendering is not modelled: JSX, CSS classes, animation and react-hot-toast. The one exception is the red/emerald choice in `renderDate`.
- The presentational components are not part of this model, and neither are the error boundary, the navbar's logout button or the thin demo wrapper page. Route wiring appears only as `RouteGuard.ClientRouteProps`.
- The server side of OTP sending and checking is not visible, so the reply stands in for it.
- `console.error` logging, the clearing of the two file inputs through `resumeRef` and `photoRef` after a submission, and the demo table's loading row are not modelled.

## Findings

| source | as written | input that shows it | evidently intended | confidence | as-written member | corrected member |
|---|---|---|---|---|---|---|
| src/pages/ClientDashboard.jsx:57 | the separator between company and designation is the text " â€¢ ", the bullet's UTF-8 bytes saved as Windows-1252 | a corporate user with designation "HR Lead" sees "Your company â€¢ HR Lead" | " • " between company and designation | high, not executed | Dashboard.WrittenCompanyLine, Dashboard.SeparatorMojibake | Dashboard.CompanyLine, Dashboard.CompanyLineShape |
| src/components/Public/other/ApplicationForm.jsx:424 | the review section is rendered at `step === 8` | the steps run from 0 to 7, where Next stops (lines 18-27, 233-236), so step 8 is never reached and the review never shows | the review at the last step, index 7, "Review" | high, not executed | ApplicationForm.ReviewShownAsWritten, ApplicationForm.ReviewUnreachableAsWritten | ApplicationForm.ReviewShown, ApplicationForm.ReviewReached |
