# TagBack client state, modelled in Dafny

TagBack is a mobile application for reporting lost and found items. Its
client keeps no algorithmic core; what it has is the state behind the
screens. This project models that state and the decisions around it, with
every call to the hosted backend, the location service and the device
storage turned into a reply given as a parameter.

- **Item stores.** `ItemProvider` (module `ItemContext`) and
  `SupabaseItemProvider` (module `SupabaseItemContext`) are classes with
  five collections and a loading flag. `ItemProvider` refreshes each
  collection independently and clears all five when the user signs out.
  `SupabaseItemProvider` stops its refresh at the first failing query and
  keeps the collections on sign-out. Both refresh policies are defined
  once in `Backend` over a generic `Collections` record, and are related
  there by lemmas. Methods return the requests they sent, so "no query is
  made" and "exactly one refresh follows" are part of their contracts.
- **Auth stores.** `AuthProvider` (`AuthContext`) resolves the published
  user through a profile read, a profile insert and a username fallback
  chain. `SupabaseAuthProvider` (`SupabaseAuthContext`) falls back to the
  bare auth user. Each maps a gateway error message to a fixed text by
  testing its markers one after another, so the first marker the message
  carries decides; a message with none is passed on. Each has a
  soft-failing profile update.
- **Screens.** The sign-in/sign-up form (`AuthScreen`) covers validation,
  error classification and the mode switch. The lost-item report form
  (`ReportLostScreen`) covers the submit checks, the location fill, the
  reward parse and the location button. The setup banner's configuration
  test is in `SetupBanner`.
- **Theme.** `ThemeProvider` (`ThemeContext`) holds a dark-mode flag that
  is persisted under the key `darkMode` of a key-value store.

Shared modules: `Base` holds optional values and promise outcomes.
`Text` holds JavaScript's `trim`, `includes`, `join`, `split`, `length`
(in UTF-16 code units), integer `toString` and base-ten `parseInt`. `Backend` holds gateway replies,
environment values and the refresh policies. `Items` and `Accounts` hold
the records.

The model shows one gap between the auth store and the screen.
`AuthProvider.signUp` rewrites the gateway's "User already registered"
message before the screen sees it. As a result, the screen's switch to
sign-in mode can only fire for a message passed through unchanged (lemma
`AuthScreen.SignUpNeverSwitches`).

Some facts about the code that the model keeps:

- `ItemProvider` inserts no `is_found` flag, and it writes a null reward
  for a reward of zero (contexts/ItemContext.tsx:223-230).
- A refresh runs five queries (contexts/ItemContext.tsx:141-199).
- Nothing guards the match status transitions: confirm and reject write
  whatever the current status is (contexts/ItemContext.tsx:277-305).
- Only `ItemProvider` has the web location fallback
  (contexts/ItemContext.tsx:90-131); `SupabaseItemProvider` has none
  (contexts/SupabaseItemContext.tsx:83-116).

## Model

| member | source | states |
|---|---|---|
| `Backend.Replace` | contexts/ItemContext.tsx:146-151 | A failed query keeps its collection. A successful one replaces the collection with its data, or `[]` when the data is null. |
| `Backend.RefreshEach` | contexts/ItemContext.tsx:141-206 | The independent policy: each collection follows its own reply. Pinned by `RefreshEachIndependent` and `RefreshIdempotent`. |
| `Backend.RefreshUntilFailure` | contexts/SupabaseItemContext.tsx:122-179 | The stop-at-first-failure policy. Pinned by `UntilFailurePrefix` and `UntilFailureIsEachBeforeFailure`. |
| `Backend.FirstFailure` | contexts/SupabaseItemContext.tsx:124-173 | Every query before the returned position succeeded, and the query at that position failed; 5 when none failed. |
| `Backend.UntilFailurePrefix` | contexts/SupabaseItemContext.tsx:124-176 | Under stop-at-first-failure, every collection before the first failing query is replaced. That collection and every later one keep their old values. |
| `Backend.UntilFailureIsEachBeforeFailure` | contexts/SupabaseItemContext.tsx:122-179 | Stopping at the first failure gives the same result as the independent policy with every later reply treated as failed. |
| `Backend.PoliciesAgreeWithoutFailure` | contexts/SupabaseItemContext.tsx:124-173 | When no query fails, the two refresh policies give the same collections. |
| `Backend.RefreshEachIndependent` | contexts/ItemContext.tsx:141-206 | Under the independent policy, each collection's new value depends only on its own reply. |
| `Backend.RefreshIdempotent` | contexts/ItemContext.tsx:146-205 | Under either policy, applying the same replies twice gives the same result as applying them once. |
| `Backend.RefreshForgetsPrevious` | contexts/ItemContext.tsx:150-205 | When every query succeeds, the previous contents play no part in the result. |
| `Text.BlankIffAllSpace` | app/auth/index.tsx:36 | A text is empty after `trim()` exactly when every one of its characters is white space. |
| `Text.Trim` | app/auth/index.tsx:36 | `trim()`: white space is dropped from both ends. Pinned by `TrimStartDrops`, `TrimEndDrops` and `BlankIffAllSpace`. |
| `Text.TrimStartDrops` | app/report-lost/index.tsx:63 | `trimStart()` removes a prefix made only of white space and keeps the rest. |
| `Text.TrimEndDrops` | app/report-lost/index.tsx:63 | `trimEnd()` removes a suffix made only of white space and keeps the rest. |
| `Text.Utf16Length` | app/auth/index.tsx:44 | `length` counts UTF-16 code units: between the number of characters and twice it, equal to it exactly when no character lies outside the Basic Multilingual Plane. |
| `Text.Utf16LengthAppend` | app/auth/index.tsx:44 | The code units of a concatenation are the sum of those of its parts. |
| `Text.Utf16LengthAstral` | app/auth/index.tsx:44 | A text made only of characters outside the Basic Multilingual Plane has exactly two code units per character. |
| `Text.Contains` | contexts/AuthContext.tsx:144 | `includes`: `sub` occurs at some position of `s`. Used by `ContainsAsPrefix`, `ContainsInSuffix` and `MissingCharNotContained`. |
| `Text.MissingCharNotContained` | contexts/AuthContext.tsx:146 | A text cannot include a string one of whose characters it lacks. |
| `Text.Join` | contexts/ItemContext.tsx:120 | `join(sep)`. Pinned by `JoinEmptyIff`, `JoinContainsEach` and `SplitJoin`. |
| `Text.JoinEmptyIff` | contexts/ItemContext.tsx:120 | A join is empty exactly when every part is empty. |
| `Text.JoinContainsEach` | contexts/ItemContext.tsx:120 | Every part occurs in the joined text. |
| `Text.Split` | contexts/AuthContext.tsx:69 | `split(c)` on one character; never empty. Pinned by `SplitJoin`. |
| `Text.SplitJoin` | contexts/ItemContext.tsx:198 | Splitting a join on a separator that no part contains gives back the parts. |
| `Text.IntToDecimal` | app/report-lost/index.tsx:204 | `toString()` on an integer whose magnitude is below 10^21 (`PlainDigitsRange`). Pinned by `DecimalRoundTrip`. |
| `Text.ParseInt` | app/report-lost/index.tsx:205 | `parseInt(s)` in base ten. Pinned by `DecimalRoundTrip`, `DigitPrefixParse` and `ParseIntNaNIff`. |
| `Text.DecimalRoundTrip` | app/report-lost/index.tsx:204-205 | For every integer of magnitude below 10^21, which `toString()` writes in plain digits, `parseInt` of that text gives the integer back. |
| `Text.DigitPrefixParse` | app/report-lost/index.tsx:205 | Leading digits give their value, whatever non-digit text follows. |
| `Text.ParseIntNaNIff` | app/report-lost/index.tsx:205 | `parseInt` gives `NaN` exactly when no digit follows the leading white space and one optional sign. |
| `Accounts.SignOut` | contexts/AuthContext.tsx:207-210 | Sign-out resolves exactly when the gateway call succeeds, and otherwise rethrows the gateway's message. |
| `Accounts.PointsOrZero` | contexts/AuthContext.tsx:77 | A null or zero point count reads as 0. Any other value is kept. |
| `Accounts.ProfileUser` | contexts/AuthContext.tsx:72-78 | A loaded profile gives the auth user plus the profile's username and its points, or 0 points. |
| `Accounts.Overlay` | contexts/AuthContext.tsx:229 | Each key present in the update overrides the user's value. Every other field is kept. |
| `Accounts.OverlayLaws` | contexts/SupabaseAuthContext.tsx:166 | Applying the same update twice is the same as applying it once. An empty update changes nothing. Two updates in a row equal their merge. |
| `AuthContext.FallbackUsername` | contexts/AuthContext.tsx:69 | The fallback name is never empty. It is the metadata username, or a prefix of the email with no `@`, or `user`. |
| `AuthContext.FallbackFromEmail` | contexts/AuthContext.tsx:87 | Without a metadata username, the address `local@domain` gives `local`. |
| `AuthContext.FallbackPrefersMetadata` | contexts/AuthContext.tsx:98 | A non-empty metadata username always wins over the address. |
| `AuthContext.FallbackUser` | contexts/AuthContext.tsx:113-117 | The fallback user has the fallback name and 0 points. |
| `AuthContext.NewProfileRow` | contexts/AuthContext.tsx:84-89 | The inserted profile has the user's id, the email or `""`, the fallback name and 0 points. |
| `AuthContext.NeedsInsert` | contexts/AuthContext.tsx:64-80 | An insert is needed for the no-row code or an empty result. Pinned by `LoadRequests` and `ResolveUser`. |
| `AuthContext.LoadRequests` | contexts/AuthContext.tsx:58-91 | The profile select comes first. An insert is attempted exactly when the read found no profile: the no-row code or an empty result. |
| `AuthContext.ResolveUser` | contexts/AuthContext.tsx:64-117 | A found profile gives its values. A created row gives its values. A read error other than the no-row code, a failed insert or an exception gives the fallback user. The result always has a username and points. |
| `AuthContext.ResolvedUserOrigin` | contexts/AuthContext.tsx:64-117 | The published user is the fallback or comes from a profile row. An empty username can only come from a row. |
| `AuthContext.SignUpMessage` | contexts/AuthContext.tsx:144-154 | The first marker present, in the order rate limit, "User already registered", `signup_disabled`, `invalid_credentials`, gives its fixed text (too many sign-ups, account exists, sign-up disabled, bad input). With no marker, a non-empty message is shown unchanged and an empty one gives the default failure text. The result is never empty and never contains "User already registered". |
| `AuthContext.SignInMessage` | contexts/AuthContext.tsx:183-193 | The first marker present, in the order "Invalid login credentials" or `invalid_credentials`, "Email not confirmed", `too_many_requests`, `signup_disabled`, gives its fixed text (bad credentials, confirm e-mail, too many logins, disabled). With no marker, a non-empty message is shown unchanged and an empty one gives the default failure text. The result is never empty. |
| `AuthContext.SignUpOutcome` | contexts/AuthContext.tsx:127-159 | A missing or empty URL or key rejects with the configuration error. Otherwise a reported error rejects with `SignUpMessage` of its message, a reply without a user rejects with the no-account text, a thrown message is rethrown unchanged, and a user resolves. Only a thrown message can contain "User already registered". |
| `AuthContext.SignInOutcome` | contexts/AuthContext.tsx:172-198 | A missing or empty URL or key rejects with the configuration error. Otherwise a reported error rejects with `SignInMessage` of its message, a reply without a user rejects with the no-sign-in text, a thrown message is rethrown unchanged, and a user resolves. |
| `AuthContext.AuthStore.constructor` | contexts/AuthContext.tsx:23-25 | The store starts with no user, no session, and `isLoading` set. |
| `AuthContext.AuthStore.LoadUserProfile` | contexts/AuthContext.tsx:54-121 | The user becomes the resolved one and `isLoading` becomes false on every path. The requests sent are the select and, only when needed, the insert. |
| `AuthContext.AuthStore.InitialSession` | contexts/AuthContext.tsx:29-37 | A session's user is loaded. Without a session, only `isLoading` is cleared. |
| `AuthContext.AuthStore.AuthStateChanged` | contexts/AuthContext.tsx:40-49 | A session's user is loaded. Without a session the user becomes null and `isLoading` becomes false. |
| `AuthContext.AuthStore.SignUp` | contexts/AuthContext.tsx:123-166 | No call is made when the configuration is missing. `isLoading` stays set exactly when sign-up resolves. |
| `AuthContext.AuthStore.SignIn` | contexts/AuthContext.tsx:168-205 | No call is made when the configuration is missing. `isLoading` stays set exactly when sign-in resolves. |
| `AuthContext.AuthStore.UpdateProfile` | contexts/AuthContext.tsx:212-233 | With no user, nothing is sent. On a remote error the user is unchanged and nothing is thrown. On success the user is overlaid with the updates. |
| `SupabaseAuthContext.ResolveUser` | contexts/SupabaseAuthContext.tsx:63-78 | A found profile adds its username and its points, or 0 points. An error, no row or an exception gives the bare auth user. |
| `SupabaseAuthContext.NoInventedFields` | contexts/SupabaseAuthContext.tsx:63-78 | A username and points are present exactly when a profile was read. |
| `SupabaseAuthContext.SignUpMessage` | contexts/SupabaseAuthContext.tsx:98-106 | The rate-limit marker gives the rate-limit text. Without it, "User already registered" gives the account-exists text. A message with neither is shown unchanged, even when empty. |
| `SupabaseAuthContext.SignInMessage` | contexts/SupabaseAuthContext.tsx:125-135 | The first marker present, in the order "Invalid login credentials", "Email not confirmed", `too_many_requests`, gives its fixed text. A message with none of the three is shown unchanged; the `invalid_credentials` code is not recognised. |
| `SupabaseAuthContext.SignUpOutcome` | contexts/SupabaseAuthContext.tsx:87-111 | Sign-up resolves exactly when there is no error, with or without a user. A reported error rejects with the mapped text, and a thrown one with its own message. |
| `SupabaseAuthContext.SignInOutcome` | contexts/SupabaseAuthContext.tsx:120-137 | Sign-in resolves exactly when there is no error. A reported error rejects with the mapped text, and a thrown one with its own message. |
| `SupabaseAuthContext.SupabaseAuthStore.constructor` | contexts/SupabaseAuthContext.tsx:23-25 | The store starts with no user, no session, and `isLoading` set. |
| `SupabaseAuthContext.SupabaseAuthStore.LoadUserProfile` | contexts/SupabaseAuthContext.tsx:52-82 | One read is made, the user becomes the resolved user, and `isLoading` becomes false. |
| `SupabaseAuthContext.SupabaseAuthStore.InitialSession` | contexts/SupabaseAuthContext.tsx:29-36 | A session's user is loaded. Otherwise only `isLoading` is cleared. |
| `SupabaseAuthContext.SupabaseAuthStore.AuthStateChanged` | contexts/SupabaseAuthContext.tsx:39-47 | Without a session, the user becomes null and `isLoading` becomes false. |
| `SupabaseAuthContext.SupabaseAuthStore.SignUp` | contexts/SupabaseAuthContext.tsx:84-115 | One call is made. `isLoading` is false afterwards on success and on failure. |
| `SupabaseAuthContext.SupabaseAuthStore.SignIn` | contexts/SupabaseAuthContext.tsx:117-141 | One call is made. `isLoading` is false afterwards on success and on failure. |
| `SupabaseAuthContext.SupabaseAuthStore.UpdateProfile` | contexts/SupabaseAuthContext.tsx:148-170 | With no user or on an error, local state is unchanged and nothing is thrown. On success the updates are merged. |
| `AuthScreen.LooksLikeEmailIff` | app/auth/index.tsx:38 | The search agrees with `/\S+@\S+\.\S+/` on every text. |
| `AuthScreen.PatternNotBlank` | app/auth/index.tsx:36-40 | A text the email pattern accepts is never blank. |
| `AuthScreen.FormValidIff` | app/auth/index.tsx:33-61 | The form is valid exactly when these all hold: the email matches; the password is not blank and has a `length` of at least 6 UTF-16 code units; and in sign-up mode the username is not blank and has at least 3 code units, and the confirmation equals the password. |
| `AuthScreen.AstralPasswordLength` | app/auth/index.tsx:42-46 | For every non-empty password made only of characters outside the Basic Multilingual Plane, the password passes exactly when it has at least 3 characters. |
| `AuthScreen.EmailPattern` | app/auth/index.tsx:38 | Independent statement of `/\S+@\S+\.\S+/`: some `@` and a later `.` with non-space text before, between and after. Pinned to the search by `LooksLikeEmailIff`. |
| `AuthScreen.LooksLikeEmail` | app/auth/index.tsx:38 | The regular-expression search; `LooksLikeEmailIff` proves it equal to `EmailPattern`. |
| `AuthScreen.EmailError` | app/auth/index.tsx:36-40 | Blank email: "required"; otherwise a failed pattern: "invalid format". Pinned by `FormValidIff`. |
| `AuthScreen.PasswordError` | app/auth/index.tsx:42-46 | Blank password: "required"; otherwise fewer than 6 code units: "too short". Pinned by `FormValidIff` and `AstralPasswordLength`. |
| `AuthScreen.UsernameError` | app/auth/index.tsx:49-53 | Blank username: "required"; otherwise fewer than 3 code units: "too short". Pinned by `FormValidIff`. |
| `AuthScreen.ConfirmError` | app/auth/index.tsx:54-56 | An error exactly when the confirmation differs from the password. Pinned by `FormValidIff`. |
| `AuthScreen.FormErrors` | app/auth/index.tsx:33-61 | The error map of the form, one key per failing field. Pinned by `FormValidIff` and `LoginChecksTwoFields`. |
| `AuthScreen.RecordError` | app/auth/index.tsx:36-56 | One `if (error) newErrors.field = error` step: the map gains the field's error when there is one and is otherwise unchanged (`With`). |
| `AuthScreen.LoginChecksTwoFields` | app/auth/index.tsx:48-57 | In sign-in mode only the email and password fields can carry errors. |
| `AuthScreen.ClassifyAuthError` | app/auth/index.tsx:90-107 | The first marker present decides: "User already registered" gives the account-exists text; "Invalid login credentials" or `invalid_credentials` gives the bad-credentials text in sign-in mode and the cannot-create text in sign-up mode; "Email not confirmed" gives the confirm text; `too_many_requests` or the rate-limit code gives the too-many text; `signup_disabled` gives the disabled text. Otherwise the message is shown, or the default text when it is empty. The screen switches to sign-in exactly when the message contains "User already registered". |
| `AuthScreen.SignUpNeverSwitches` | app/auth/index.tsx:90-92 | No sign-up rejection that `AuthProvider` produces itself ever triggers the switch to sign-in. |
| `AuthScreen.ThrownRegistrationSwitches` | app/auth/index.tsx:90-92 | A rejected gateway call whose message says the user is already registered does trigger the switch. |
| `AuthScreen.SignInSwitchesOnlyOnRawText` | app/auth/index.tsx:90-92 | In sign-in mode the switch fires only when the gateway's own message says the user is already registered. |
| `AuthScreen.AuthForm.constructor` | app/auth/index.tsx:20-28 | The screen opens in sign-in mode with every field empty. |
| `AuthScreen.AuthForm.ValidateForm` | app/auth/index.tsx:33-61 | The stored error map is the form's errors. The result is true exactly when that map is empty. |
| `AuthScreen.AuthForm.HandleSubmit` | app/auth/index.tsx:71-109 | An invalid form sends nothing and leaves the store alone. A valid form sends, when the configuration is present, `signIn(email, password)` in sign-in mode or `signUp(email, password, username)` in sign-up mode with the typed fields. The store's user and session are unchanged, and its `isLoading` stays set exactly when the screen navigates. The screen navigates exactly when the store resolves; otherwise it shows the classified error and switches mode when that error asks to. |
| `AuthScreen.AuthForm.ShowOutcome` | app/auth/index.tsx:84-107 | On success the screen navigates. On a rejection it shows the classified text and switches only on the registration marker. |
| `AuthScreen.AuthForm.SwitchMode` | app/auth/index.tsx:111-121 | The mode is negated, and every field, error and visibility flag is reset. |
| `ItemContext.LostRowFor` | contexts/ItemContext.tsx:223-230 | description = given value or `""`; category = given value or `Other`; location = address or `""`. The reward is null exactly when it is 0, and otherwise a text that parses back to it when its magnitude is below 10^21. `user_id` is the user. |
| `ItemContext.FoundRowFor` | contexts/ItemContext.tsx:255-259 | The description is the given one, else the title. The category falls back to `Other` and the location falls back to `""`. |
| `ItemContext.IdList` | contexts/ItemContext.tsx:198 | The ids joined with commas, or `null` when that text is empty. Pinned by `IdListOfNothing` and `IdListRoundTrip`. |
| `ItemContext.IdListOfNothing` | contexts/ItemContext.tsx:198 | A null or empty id list is written as the literal `null`. |
| `ItemContext.IdListRoundTrip` | contexts/ItemContext.tsx:198 | Splitting a written id list on commas gives back the ids, in order. |
| `ItemContext.MatchFilter` | contexts/ItemContext.tsx:198 | The two `in` clauses built from this refresh's user queries. Pinned by `MatchFilterAfterFailures` and `IdListRoundTrip`. |
| `ItemContext.MatchFilterAfterFailures` | contexts/ItemContext.tsx:167-198 | When both user queries fail, the match filter is `lost_item_id.in.(null),found_item_id.in.(null)`, whatever the store holds. |
| `ItemContext.RefreshRequests` | contexts/ItemContext.tsx:141-199 | Every refresh issues all five queries. |
| `ItemContext.ApplyStatusUpdate` | contexts/ItemContext.tsx:279-282 | The match with the given id takes the new status whatever its old one. No other match changes. |
| `ItemContext.ConfirmTwice` | contexts/ItemContext.tsx:277-290 | Confirming twice is the same as confirming once. |
| `ItemContext.RejectAfterConfirm` | contexts/ItemContext.tsx:292-305 | A confirmed match can still be rejected. |
| `ItemContext.Present` | contexts/ItemContext.tsx:115-120 | `filter(Boolean)` keeps exactly the given parts: every kept part is non-empty and comes from the input, and every given part is kept. |
| `ItemContext.ComposeAddress` | contexts/ItemContext.tsx:115-120 | The given parts joined with `, `. Pinned by `AddressEmptyIff` and `AddressKeepsParts`. |
| `ItemContext.AddressEmptyIff` | contexts/ItemContext.tsx:115-120 | The address is empty exactly when no part is given. |
| `ItemContext.AddressKeepsParts` | contexts/ItemContext.tsx:115-120 | Every given part occurs in the address, and a lone part is the whole address. |
| `ItemContext.CurrentLocation` | contexts/ItemContext.tsx:90-131 | On the web the result is the fixed location. Without permission, or when the position fails, it rejects. When geocoding fails or finds nothing, the coordinates come back with no address. |
| `ItemContext.ItemStore.constructor` | contexts/ItemContext.tsx:70-75 | The store starts with empty collections and `isLoading` false. |
| `ItemContext.ItemStore.RefreshData` | contexts/ItemContext.tsx:133-213 | With no user, nothing is sent and nothing changes. Otherwise five queries run, each collection follows its own reply, and `isLoading` ends false. |
| `ItemContext.ItemStore.UserChanged` | contexts/ItemContext.tsx:77-88 | A user triggers one refresh. A null user empties all five collections. |
| `ItemContext.ItemStore.ReportLostItem` | contexts/ItemContext.tsx:215-245 | With no user it throws before any insert. An insert error is rethrown with no refresh. Success sends the row followed by exactly one refresh. |
| `ItemContext.ItemStore.ReportFoundItem` | contexts/ItemContext.tsx:247-275 | Same as `ReportLostItem`, with the found-item row. |
| `ItemContext.ItemStore.SetMatchStatus` | contexts/ItemContext.tsx:277-305 | One status write with no user or status check. An error is rethrown with no refresh. Success is followed by one refresh. |
| `ItemContext.ItemStore.ConfirmMatch` | contexts/ItemContext.tsx:277-290 | Writes `confirmed` with the behaviour of `SetMatchStatus`. |
| `ItemContext.ItemStore.RejectMatch` | contexts/ItemContext.tsx:292-305 | Writes `rejected` with the behaviour of `SetMatchStatus`. |
| `SupabaseItemContext.LostInsertFor` | contexts/SupabaseItemContext.tsx:186-192 | The caller's fields, unchanged, plus the user and `is_found` false. |
| `SupabaseItemContext.FoundInsertFor` | contexts/SupabaseItemContext.tsx:206-212 | The caller's fields, unchanged, plus the user and `is_matched` false. |
| `SupabaseItemContext.FoundDescriptionKept` | contexts/SupabaseItemContext.tsx:206-212 | For every item, an absent description stays absent, where the other store writes the title. |
| `SupabaseItemContext.MatchesFilter` | contexts/SupabaseItemContext.tsx:169 | `finder_id.eq.<user>,owner_id.eq.<user>`. Pinned by `MatchesFilterClauses`. |
| `SupabaseItemContext.MatchesFilterClauses` | contexts/SupabaseItemContext.tsx:169 | The filter has exactly two clauses: `finder_id` equals the user, and `owner_id` equals the user. |
| `SupabaseItemContext.RefreshRequests` | contexts/SupabaseItemContext.tsx:124-172 | The queries sent are a prefix of the five, ending with the first failing one. All five are sent when none fails. |
| `SupabaseItemContext.CurrentLocation` | contexts/SupabaseItemContext.tsx:83-116 | Agrees with the other store's location step off the web. This store has no web branch. |
| `SupabaseItemContext.SupabaseItemStore.constructor` | contexts/SupabaseItemContext.tsx:70-75 | The store starts with empty collections and `isLoading` false. |
| `SupabaseItemContext.SupabaseItemStore.RefreshData` | contexts/SupabaseItemContext.tsx:118-180 | With no user it is a no-op. Otherwise the collections follow stop-at-first-failure, nothing is thrown, and `isLoading` ends false. |
| `SupabaseItemContext.SupabaseItemStore.UserChanged` | contexts/SupabaseItemContext.tsx:77-81 | A user triggers one refresh. A null user changes no collection. |
| `SupabaseItemContext.SupabaseItemStore.ReportLostItem` | contexts/SupabaseItemContext.tsx:182-200 | With no user it throws before any insert. An insert error is rethrown. Success is followed by one refresh. |
| `SupabaseItemContext.SupabaseItemStore.ReportFoundItem` | contexts/SupabaseItemContext.tsx:202-220 | Same as `ReportLostItem`, with the found-item row. |
| `ReportLostScreen.RewardFromText` | app/report-lost/index.tsx:205 | The reward is the parsed integer, or 0 when the text holds no number. |
| `ReportLostScreen.RewardOfNaN` | app/report-lost/index.tsx:205 | Any text where no digit follows the leading white space and an optional sign (empty, a word, a lone sign) gives 0. |
| `ReportLostScreen.RewardOfDigitPrefix` | app/report-lost/index.tsx:205 | Leading digits give their value, whatever follows them. |
| `ReportLostScreen.RewardShownRoundTrip` | app/report-lost/index.tsx:204-205 | For a reward of magnitude below 10^21, reading back the shown `toString()` gives the same reward. |
| `ReportLostScreen.Captured` | app/report-lost/index.tsx:48-53 | The location button sets both coordinates and sets the address to the returned one or `""`. Every other field is unchanged. |
| `ReportLostScreen.WithLocation` | app/report-lost/index.tsx:78-86 | The fetched coordinates replace the form's. The address is replaced only by a non-empty fetched one. Every other field is unchanged. |
| `ReportLostScreen.MergesDiffer` | app/report-lost/index.tsx:84 | The two merges agree exactly when the form address is empty or a non-empty address came back. |
| `ReportLostScreen.SubmitGuard` | app/report-lost/index.tsx:63-71 | A blank title is checked first, then an empty category. The form is ready exactly when neither check fails. |
| `ReportLostScreen.Payload` | app/report-lost/index.tsx:88-97 | Title, description, category, coordinates, address, date and reward are passed on unchanged. |
| `ReportLostScreen.Report` | app/report-lost/index.tsx:77-97 | A location is used exactly when a coordinate is missing or zero. A failed fetch means nothing is reported. |
| `ReportLostScreen.SubmittedRow` | app/report-lost/index.tsx:88-97 | A form that passes the checks reaches the `lost_items` row with its title, description, category and address intact. The reward is null exactly when it is 0. |
| `ReportLostScreen.AlertFor` | app/report-lost/index.tsx:62-110 | Every outcome except a successful report shows an alert. |
| `ReportLostScreen.ReportLostForm.constructor` | app/report-lost/index.tsx:31-42 | The form starts with empty texts, no coordinates, a reward of 0 and today's date. |
| `ReportLostScreen.ReportLostForm.SetReward` | app/report-lost/index.tsx:205 | Only the reward changes, to the parsed value. |
| `ReportLostScreen.ReportLostForm.HandleGetLocation` | app/report-lost/index.tsx:44-60 | A location is merged in, and a failure leaves the form unchanged. `isLoading` ends false. |
| `ReportLostScreen.ReportLostForm.HandleSubmit` | app/report-lost/index.tsx:62-110 | A failed check sends nothing. A report is made exactly when the checks pass, the location is available and the store accepts the report. The form is never changed. `isLoading` is untouched by a failed check and ends false on every path past the checks. A failed report sends nothing after a failed location fetch or with no user, and only the lost-item insert when the insert is rejected; the store's `isLoading` is then unchanged. A successful report leaves the store's `isLoading` false. |
| `ReportLostScreen.NeedsLocation` | app/report-lost/index.tsx:78 | A location is fetched when either coordinate is unset or zero. Pinned by `Report`. |
| `ThemeContext.Colors` | contexts/ThemeContext.tsx:20-42 | The dark palette is used exactly when the flag is set. `primary` and `warning` are the same in both palettes. |
| `ThemeContext.ParseFlag` | contexts/ThemeContext.tsx:57 | Only the two boolean texts parse, and each parses to the flag it stringifies. |
| `ThemeContext.Stringify` | contexts/ThemeContext.tsx:68 | `JSON.stringify` of the flag. `ParseFlag` reads each text back as its flag. |
| `ThemeContext.Toggled` | contexts/ThemeContext.tsx:64-72 | The flag is negated. On success the new value is stored under `darkMode`. A failed write keeps the negated flag. No other key changes. |
| `ThemeContext.Loaded` | contexts/ThemeContext.tsx:53-62 | With no stored value or a failed read the flag is unchanged. Otherwise the stored text decides: "true" or "false" sets the flag to that boolean, and any other (unreadable) text leaves the flag unchanged. |
| `ThemeContext.ToggleTwice` | contexts/ThemeContext.tsx:65-66 | Toggling twice restores the flag. |
| `ThemeContext.ToggleThenLoad` | contexts/ThemeContext.tsx:55-68 | A load after a successful toggle gives back the toggled flag. |
| `ThemeContext.FailedToggleLost` | contexts/ThemeContext.tsx:67-71 | A toggle whose write fails is undone by the next load when an earlier value was stored. |
| `ThemeContext.KeyValueStorage.SetItem` | contexts/ThemeContext.tsx:68 | A successful write stores the value under its key. A failed write changes nothing. |
| `ThemeContext.KeyValueStorage.GetItem` | contexts/ThemeContext.tsx:55 | A successful read gives the stored value, or nothing when the key is absent. |
| `ThemeContext.ThemeStore.constructor` | contexts/ThemeContext.tsx:47 | The provider starts in light mode. |
| `ThemeContext.ThemeStore.ToggleDarkMode` | contexts/ThemeContext.tsx:64-72 | The flag and the storage become `Toggled` of their old values. |
| `ThemeContext.ThemeStore.LoadThemeFromStorage` | contexts/ThemeContext.tsx:53-62 | The flag becomes `Loaded` of the old flag and the storage. |
| `SetupBanner.IsConfigured` | components/SupabaseSetupBanner.tsx:21-24 | False when the URL or key is absent or empty, or holds its placeholder text. True otherwise. |
| `SetupBanner.ConfiguredIsPresent` | components/SupabaseSetupBanner.tsx:21-22 | Every configuration the banner accepts passes the auth store's presence check. |
| `SetupBanner.PlaceholdersPassPresenceCheck` | contexts/AuthContext.tsx:127 | The placeholder values pass the presence check, although the banner rejects them. |

## Left out

- Rendering, styles, modals, navigation and alerts. Alerts appear only as the texts a method returns.
- Timers: the 1000 ms wait before a profile read, the success modal's 2-second timeout and `router.back()`.
- Scheduling: effect scheduling and interleaving at `await` points. Each operation runs to completion with the replies it is given.
- The backend, the location service and the device storage. Each is a reply passed in as a parameter, and the requests a method sends are returned as a sequence. The auth-change subscription becomes the `AuthStateChanged` method.
- Coordinates are opaque `real` values. Only falsiness (unset or zero) is modelled, not `NaN` or floating-point behaviour.
- Console logging and `Date`/ISO timestamps. The current date and the `updated_at` stamp are parameters.
- The server-side match creation and the joined `lost_item`/`found_item` columns of the match query. Rows are taken as the gateway returns them.
- `Text.Utf16Length`: counts code units from Unicode scalar values. A lone surrogate, which JavaScript strings can hold, cannot occur in a Dafny `string`.
- `Text.IntToDecimal`, `Text.DecimalRoundTrip`, `ReportLostScreen.RewardShownRoundTrip`, `ItemContext.LostRowFor`: from a magnitude of 10^21 on, JavaScript's `toString` writes exponent form ("1e+21"), which `parseInt` reads back as a different number. The model writes plain digits there and promises the round trip only below 10^21. Exponent form depends on floating-point formatting, which is not modelled.
- `ReportLostScreen.RewardFromText`: reads only base-ten digits. It does not model the `0x` prefix that `parseInt` accepts without a radix, or the floating-point rounding of very long digit strings.
- `AuthScreen.LooksLikeEmailIff`: the JavaScript regular-expression engine is not modelled. The search is proved equal to a direct statement of this one pattern.
- `ThemeContext.ParseFlag`: a stored text that is valid JSON but not a boolean (a number, say) is treated as unreadable. The code would set a non-boolean flag in that case. Only `toggleDarkMode` writes the key.
- `Text.IsSpace`: covers JavaScript's white-space and line-terminator characters. Unicode normalisation is not modelled.
- The remaining screens (profile, help, settings, privacy, drawer, header, chat simulation, camera) and the backend client construction are not part of this model.
