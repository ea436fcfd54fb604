# Parks app client logic, in Dafny

This project models the decision logic of a React Native client for a parks
catalogue. Visitors browse the events and activities of each park. Signed-in
users manage their profile. Administrators create, edit and delete events,
activities and parks. The model covers:

- **Session**: the session context (`AuthProvider`, `signIn`, `signOut`,
  `loadStorageData`, `useAuth`). AsyncStorage is modelled as a string map and
  the HTTP client's default headers as a second map.
- **HTTP client**: the shared client (`BASE` normalisation, `setAuthToken`).
- **Routing**: the root, stack and tab decisions, and the three administrator
  checks. The navigator's and the profile screen's checks accept the same
  roles; the admin screens' exact test disagrees with both.
- **Login**: the form checks and the submission that builds the session user.
- **Profile screen**:
  - name, e-mail and password changes;
  - park creation through its dialog;
  - the debounced search for events and activities to delete;
  - the guarded delete.
- **Administrator screens**: the edit screen (search, load, mode switch,
  `oneLine`, updates) and the create screen (readiness checks, payloads,
  resets).
- **Catalogue screens**: home (events) and activities, with per-park loading,
  the settle-all aggregation, the 404 rule, the persisted park filter and the
  list filters.
- **Connectivity banner**.

Backend answers are parameters of the handlers. A response is
`Ok(body) | Err(status, detail)`, and a per-park backend is a function
`Request -> Response`. Handlers return the requests they issue and the alerts
they raise, so "no request" and "no alert" are part of their contracts.
Screens whose handlers change state step by step are classes. Their fields are
the component's state, and each handler states its full effect on them.

Modules:

- `Base`: `Option` and the `??` / `||` fallbacks.
- `Text`: ASCII trim, case and digits.
- `Seqs`: filter, map and sort.
- `Http`, `KeyValue`, `Api`, `Session`, `Roles` and `Routing`.
- `Catalog`: parks, ids and the current park.
- `Debounce`: one pending timer.
- `Login`, `ParkForm`, `ProfileSearch`, `Profile`, `Admin`, `AdminEdit`,
  `AdminCreate`, `Home`, `Activities` and `Network`.

## Model

| member | source | states |
|---|---|---|
| Text.Trim | src/components/Modals/CreateParqueDialog.tsx:47 | `trim` drops exactly the surrounding whitespace: the result is a slice with no whitespace at either end, and everything dropped is whitespace |
| Text.BlankIffAllSpace | src/components/Modals/CreateParqueDialog.tsx:39-42 | `!s.trim()` holds exactly when every character is whitespace |
| Text.TrimIdempotent | src/components/Modals/CreateParqueDialog.tsx:47 | trimming twice is trimming once |
| Text.TrimNoSurroundingSpace | src/services/api.ts:4 | a string with no surrounding whitespace is its own trim |
| Text.Lower | src/screens/UserScreen/UserScreen.tsx:61 | `toLowerCase` keeps the length |
| Text.LowerIdempotent | src/screens/UserScreen/UserScreen.tsx:121 | lower-casing twice is lower-casing once |
| Text.TrimLowerCommute | src/routes/AppStack.tsx:16 | lower-then-trim (the stack's check) equals trim-then-lower (the profile's check) |
| Text.ContainsEmpty | src/screens/HomeScreen/HomeScreen.tsx:138-141 | every text contains the empty query |
| Text.NotContainedInEmpty | src/screens/UserScreen/UserScreen.tsx:131-132 | an empty name contains no non-empty query |
| Text.BeforeFirst | src/screens/LoginScreen/LoginScreen.tsx:50 | `split("@")[0]` is a prefix without `@`, followed by `@` when shorter than the text |
| Text.KeepDigits | src/screens/AdminCreateScreen/AdminCreateScreen.tsx:375 | `replace(/\D+/g, "")` leaves only digits and never lengthens |
| Text.KeepDigitsAppend | src/screens/AdminCreateScreen/AdminCreateScreen.tsx:375 | the filter distributes over concatenation, so it acts character by character |
| Text.KeepDigitsChar | src/screens/AdminCreateScreen/AdminCreateScreen.tsx:375 | a single digit is kept and any other single character removed |
| Text.KeepDigitsOfDigits | src/screens/AdminEditScreen/AdminEditScreen.tsx:461 | a digit string passes the minutes input unchanged |
| Text.NatToString | src/screens/ActivitiesScreen/ActivitiesScreen.tsx:88 | a number's decimal text is a non-empty digit string |
| Text.ParseNatToString | src/screens/AdminEditScreen/AdminEditScreen.tsx:189 | reading back a number's decimal text gives the number |
| Text.ParseDigitsPositive | src/screens/AdminCreateScreen/AdminCreateScreen.tsx:116-117 | a digit string denotes a positive number exactly when some digit is not `0` |
| Seqs.Select | src/screens/HomeScreen/HomeScreen.tsx:133-144 | `filter` keeps only accepted elements and never lengthens |
| Seqs.SelectMembership | src/screens/ActivitiesScreen/ActivitiesScreen.tsx:186-188 | `filter` keeps exactly the elements its callback accepts |
| Seqs.SelectAppend | src/screens/HomeScreen/HomeScreen.tsx:133-144 | `filter` keeps order: it distributes over concatenation |
| Seqs.SelectAll | src/screens/ActivitiesScreen/ActivitiesScreen.tsx:185 | a filter accepting everything returns its input |
| Seqs.SortBy | src/screens/HomeScreen/HomeScreen.tsx:145 | the sort is ascending in its key and a permutation of its input |
| Seqs.SortByMembership | src/screens/HomeScreen/HomeScreen.tsx:145 | sorting neither adds nor drops elements |
| Seqs.Map | src/screens/AdminEditScreen/AdminEditScreen.tsx:133-137 | `map` keeps the length and maps each position |
| Seqs.SelectMapMembership | src/screens/AdminEditScreen/AdminEditScreen.tsx:130-138 | filter-then-map yields exactly the images of the accepted elements |
| Http.MessageOr | src/screens/LoginScreen/LoginScreen.tsx:56 | `detail \|\| fallback`: a non-empty detail wins, otherwise the fallback |
| Http.Responses | src/screens/HomeScreen/HomeScreen.tsx:88-92 | one settled outcome per request, in request order |
| Http.CollectFulfilled | src/screens/HomeScreen/HomeScreen.tsx:93-96 | the push loop over settled outcomes equals the concatenation of the fulfilled bodies |
| Http.FulfilledAppend | src/screens/ActivitiesScreen/ActivitiesScreen.tsx:133-142 | aggregation keeps request order: it distributes over concatenation |
| Http.RejectedContributesNothing | src/screens/ActivitiesScreen/ActivitiesScreen.tsx:137-141 | a rejected outcome adds nothing |
| Http.FailedRequestOmitted | src/screens/HomeScreen/HomeScreen.tsx:94-96 | removing a rejected outcome leaves the aggregate unchanged |
| Http.FulfilledMembership | src/screens/HomeScreen/HomeScreen.tsx:94-96 | an item is aggregated iff some fulfilled outcome's body holds it |
| Http.AllRejectedIsEmpty | src/screens/ActivitiesScreen/ActivitiesScreen.tsx:132-144 | when every request fails the aggregate is empty |
| KeyValue.Lookup | src/context/authContext.tsx:20-21 | `getItem` returns the stored string iff the key is present |
| KeyValue.Store.constructor | src/context/authContext.tsx:20 | the store starts with the given entries |
| KeyValue.Store.GetItem | src/context/authContext.tsx:20-21 | `getItem` yields the stored string, or null when the key is absent |
| KeyValue.Store.SetItem | src/context/authContext.tsx:32 | `setItem` maps the key to the value and changes nothing else |
| KeyValue.Store.MultiRemove | src/context/authContext.tsx:39 | `multiRemove` removes exactly the keys given |
| Api.StripTrailingSlashes | src/services/api.ts:4 | `replace(/\/+$/, "")` is a prefix not ending in `/`, and only slashes were removed |
| Api.NormalizeBase | src/services/api.ts:4 | `BASE` never ends with `/` and is never longer than the configured URL |
| Api.NormalizeBaseKeepsCleanUrl | src/services/api.ts:4 | a URL with no surrounding whitespace and no trailing slash is kept as is |
| Api.NormalizeBaseIdempotent | src/services/api.ts:4 | normalising twice equals normalising once, provided the first pass does not end in whitespace |
| Api.NormalizeBaseNotIdempotent | src/services/api.ts:4 | without that proviso idempotence fails: `"a /"` becomes `"a "`, which becomes `"a"` |
| Api.WithAuthToken | src/services/api.ts:11-17 | `setAuthToken`: a truthy token installs `Bearer <token>`, null or `""` removes the header, other headers are untouched |
| Api.WithAuthTokenOverrides | src/services/api.ts:11-17 | a later call overrides an earlier one |
| Api.LastTokenWins | src/services/api.ts:11-17 | after any sequence of calls, the header is the last call's |
| Api.Client.constructor | src/services/api.ts:4-9 | the client's base URL is `BASE` and it starts with no default header |
| Api.Client.SetAuthToken | src/services/api.ts:11-17 | the in-place header edit equals `WithAuthToken` of the old headers |
| Session.ReadFields | src/context/authContext.tsx:24 | a successful read yields exactly the number of fields asked for |
| Session.ReadFieldOfField | src/context/authContext.tsx:24-32 | one serialised field reads back as itself, leaving the rest of the text |
| Session.ReadFieldsOfFields | src/context/authContext.tsx:24-32 | a serialised field list reads back as itself |
| Session.UntagTagText | src/context/authContext.tsx:24-32 | an optional text field round-trips, absent values included |
| Session.Stringify | src/context/authContext.tsx:32 | the stored user text is never empty, so `if (storageUser)` sees it |
| Session.ParseStringify | src/context/authContext.tsx:24-32 | `JSON.parse(JSON.stringify(u))` gives back `u` |
| Session.Parse | src/context/authContext.tsx:24 | `JSON.parse` of the stored user (`ParseStringify`, `StoredUser`) |
| Session.StoredUser | src/context/authContext.tsx:20-24 | a restored user is the parse of the `@Usuario:user` entry |
| Session.SignedOutEntries | src/context/authContext.tsx:39 | signing out removes `@Usuario:user` and `@token` and keeps every other entry |
| Session.SignInThenLoad | src/context/authContext.tsx:24-32 | `signIn(u)` followed by a load restores `u` |
| Session.SignOutThenLoad | src/context/authContext.tsx:20-39 | after signing out, a load finds neither user nor token |
| Session.SignOutIdempotent | src/context/authContext.tsx:38-43 | signing out twice leaves storage and headers as signing out once |
| Session.AuthProvider.constructor | src/context/authContext.tsx:15-16 | the provider starts with no user and `signed == false` |
| Session.AuthProvider.LoadStorageData | src/context/authContext.tsx:18-27 | the header is set iff a truthy token is stored; the user is restored and `signed` set iff a user is stored; otherwise the state is unchanged |
| Session.AuthProvider.SignIn | src/context/authContext.tsx:31-36 | storage maps `@Usuario:user` to the serialised user, `user == u`, `signed`; `@token` and the header untouched |
| Session.AuthProvider.SignOut | src/context/authContext.tsx:38-43 | both keys removed, user absent, `signed == false`, header removed |
| Session.UseAuth | src/context/authContext.tsx:52-55 | `useAuth` fails with its message exactly when there is no provider, and otherwise returns it |
| Roles.StackAgreesWithProfile | src/routes/AppStack.tsx:16 | the stack's check and the profile's `isAdminRole` accept the same roles |
| Roles.ScreenAdminIsStackAdmin | src/screens/AdminEditScreen/AdminEditScreen.tsx:58 | a role the admin screens accept, other than `"admin"`, is accepted by the stack |
| Roles.AdminChecksDisagree | src/screens/AdminCreateScreen/AdminCreateScreen.tsx:55 | `"admin"` opens the admin screens but not the stack or the profile; `" Administrador "` opens the stack but not the admin screens |
| Roles.StackExamples | src/routes/AppStack.tsx:16 | the stack accepts `"administrador"`, `"ADMINISTRADOR"` and `" Administrador "`, and rejects `"user"`, `""` and an absent role |
| Roles.StackAcceptsPadded | src/routes/AppStack.tsx:16 | a padded, capitalised role normalises to `"administrador"` |
| Roles.StackRejectsUser | src/routes/AppStack.tsx:16 | `"user"` does not normalise to `"administrador"` |
| Roles.LowerAdmin | src/routes/AppStack.tsx:16 | any casing of the 13 letters normalises to `"administrador"` |
| Roles.StackIsAdmin | src/routes/AppStack.tsx:16 | lower, trim, compare (`StackAgreesWithProfile`, `StackExamples`) |
| Roles.IsAdminRole | src/screens/UserScreen/UserScreen.tsx:59-61 | trim, lower, compare (`StackAgreesWithProfile`) |
| Roles.ScreenIsAdmin | src/screens/AdminEditScreen/AdminEditScreen.tsx:58 | exact `"administrador"` or `"admin"` (`ScreenAdminIsStackAdmin`, `AdminChecksDisagree`) |
| Routing.RootFor | src/routes/index.tsx:6-9 | the app stack is chosen iff a user is present |
| Routing.RootIgnoresRole | src/routes/index.tsx:7-8 | the choice does not depend on the role |
| Routing.StackScreens | src/routes/AppStack.tsx:18-21 | `Tabs` is always registered first; `Admin` is registered iff the stack's check holds |
| Routing.OnTabPress | src/routes/AppTabs.tsx:62-69 | only the User tab without a user is intercepted, and that press goes to `Login` |
| Debounce.AtMostOnePending | src/screens/UserScreen/UserScreen.tsx:185-187 | in a consistent debouncer at most one timer is pending, none without a current one |
| Debounce.Debouncer.constructor | src/screens/UserScreen/UserScreen.tsx:102 | no timer pending |
| Debounce.Debouncer.Schedule | src/screens/AdminEditScreen/AdminEditScreen.tsx:165-166 | the pending timer is replaced: exactly the new job is pending, under a fresh handle |
| Debounce.Debouncer.Fire | src/screens/UserScreen/UserScreen.tsx:187-197 | a pending timer runs its job and is removed; a cleared one does nothing |
| Catalog.ParkKey | src/components/ParquesBar/ParquesBar.tsx:26 | a park's key is `id ?? _id` |
| Catalog.ParkIds | src/screens/HomeScreen/HomeScreen.tsx:82 | `map(id ?? _id).filter(Boolean)` keeps only non-empty ids |
| Catalog.ParkIdsAppend | src/screens/ActivitiesScreen/ActivitiesScreen.tsx:119 | the ids keep park order |
| Catalog.ParkIdsMembership | src/screens/HomeScreen/HomeScreen.tsx:82 | an id is listed iff it is non-empty and some park has it as key |
| Catalog.NoKeysNoIds | src/screens/HomeScreen/HomeScreen.tsx:82-86 | parks without truthy keys give no ids |
| Catalog.FindPark | src/screens/AdminEditScreen/AdminEditScreen.tsx:113 | `find` returns the first park whose key is the selection, or none |
| Catalog.CurrentParque | src/screens/AdminEditScreen/AdminEditScreen.tsx:111-114 | none iff no parks; otherwise a listed park, the first one when no key matches |
| Catalog.CurrentParqueIsFirstMatch | src/screens/AdminCreateScreen/AdminCreateScreen.tsx:103-106 | the current park is the first park whose key equals the selection |
| Catalog.CurrentParqueOrFirst | src/screens/HomeScreen/HomeScreen.tsx:125-129 | the catalogue variant: none iff no parks, the first park for an empty selection |
| Catalog.CurrentParqueVariantsAgree | src/screens/ActivitiesScreen/ActivitiesScreen.tsx:177-181 | both variants agree unless the selection is empty and a later park's key is `""` |
| Catalog.CurrentParqueVariantsDiffer | src/screens/HomeScreen/HomeScreen.tsx:127 | an example where the two variants differ |
| Catalog.FirstParkId | src/screens/AdminCreateScreen/AdminCreateScreen.tsx:87 | `lista[0]?.id ?? lista[0]?._id ?? ""` |
| Catalog.LoadedParks | src/screens/AdminCreateScreen/AdminCreateScreen.tsx:84-90 | the list on success, empty on failure |
| Catalog.SelectionAfterLoad | src/screens/AdminCreateScreen/AdminCreateScreen.tsx:87-88 | a non-empty previous selection is kept; otherwise the first park's id; a failure keeps the previous selection |
| Catalog.LoadedSelectionIsCurrent | src/screens/AdminEditScreen/AdminEditScreen.tsx:95-114 | after a first load the banner shows the first park |
| Catalog.RestoredSelection | src/screens/HomeScreen/HomeScreen.tsx:41-44 | a stored filter replaces the selection, otherwise it is kept |
| Catalog.SelectionPersists | src/screens/HomeScreen/HomeScreen.tsx:118-120 | a selection written to `@parqueFiltro` is what the next start restores |
| Login.EmailError | src/screens/LoginScreen/LoginScreen.tsx:23-26 | `"E-mail inválido"` iff the e-mail is non-empty and not `nonspace+@nonspace+.nonspace+`; otherwise empty |
| Login.PasswordError | src/screens/LoginScreen/LoginScreen.tsx:32-35 | a message iff the password has 1 to 3 characters |
| Login.EnabledForm | src/screens/LoginScreen/LoginScreen.tsx:37-44 | an enabled form has a well-formed e-mail that is its own trim and a password of at least 4 characters |
| Login.EmailExamples | src/screens/LoginScreen/LoginScreen.tsx:24 | the check on sample addresses |
| Login.LoginEmailShape | src/screens/LoginScreen/LoginScreen.tsx:24 | the login e-mail pattern (`EmailError`, `EmailExamples`) |
| Login.Disabled | src/screens/LoginScreen/LoginScreen.tsx:37-44 | the button's disabled state (`EnabledIff`, `EnabledForm`) |
| Login.EnabledIff | src/screens/LoginScreen/LoginScreen.tsx:37-44 | enabled exactly when not loading, the e-mail has the login shape and the password has at least four characters |
| Login.SessionUser | src/screens/LoginScreen/LoginScreen.tsx:48-54 | the session user's name is the text before the first `@`; e-mail trimmed; role and active from the reply |
| Login.Submit | src/screens/LoginScreen/LoginScreen.tsx:46-54 | `@token` stored, header set, then `signIn` with the session user |
| Login.LoginScreen.constructor | src/screens/LoginScreen/LoginScreen.tsx:18-21 | empty fields, not loading |
| Login.LoginScreen.OnSubmit | src/screens/LoginScreen/LoginScreen.tsx:40-60 | disabled: nothing happens; otherwise the credentials are sent; success stores token and user, failure alerts detail or `"Falha no login"`; loading ends false |
| Network.IsOffline | src/components/NetworkInfo/NetWorkInfo.tsx:10-11 | offline when a flag is known false (`OfflineIffKnownFalse`, `UnknownIsOnline`) |
| Network.UnknownIsOnline | src/components/NetworkInfo/NetWorkInfo.tsx:10-11 | unknown connectivity flags count as online |
| Network.OfflineIffKnownFalse | src/components/NetworkInfo/NetWorkInfo.tsx:10-11 | offline exactly when `isConnected` or `isInternetReachable` is known to be false |
| Network.IsExpensive | src/components/NetworkInfo/NetWorkInfo.tsx:13 | metered only when the flag is `true` (`UnknownIsNotExpensive`) |
| Network.MeteredNote | src/components/NetworkInfo/NetWorkInfo.tsx:39-49 | the `" • conexão medida"` suffix appears exactly for a metered connection |
| Network.UnknownIsNotExpensive | src/components/NetworkInfo/NetWorkInfo.tsx:13 | an unknown or false expense flag is not metered and shows no suffix |
| Network.ConnLabel | src/components/NetworkInfo/NetWorkInfo.tsx:14-15 | the connection type unless missing or `"unknown"`, then `"desconhecida"` |
| Network.Step | src/components/NetworkInfo/NetWorkInfo.tsx:17-20 | `prevOffline` becomes the new value; the snackbar turns on only on offline-to-online |
| Network.StepUnchangedIsNoop | src/components/NetworkInfo/NetWorkInfo.tsx:17-20 | an update with the same value changes nothing |
| Network.NoReconnectWithoutOutage | src/components/NetworkInfo/NetWorkInfo.tsx:18 | without an outage the snackbar never shows |
| Network.PrevIsLatest | src/components/NetworkInfo/NetWorkInfo.tsx:19 | after any history `prevOffline` is the latest value |
| Network.Banner.constructor | src/components/NetworkInfo/NetWorkInfo.tsx:7-8 | starts online with no snackbar |
| Network.Banner.OnOfflineChange | src/components/NetworkInfo/NetWorkInfo.tsx:17-20 | the effect's in-place update is `Step` |
| Network.Banner.Dismiss | src/components/NetworkInfo/NetWorkInfo.tsx:45 | dismissing hides the snackbar |
| ParkForm.BlankIsEmptyTrim | src/components/Modals/CreateParqueDialog.tsx:39-42 | blank iff trimming gives `""`, and trimming keeps blankness |
| ParkForm.FirstBlank | src/components/Modals/CreateParqueDialog.tsx:38-44 | the index of the first blank field, none when all are filled |
| ParkForm.ValidateIsFirstBlank | src/components/Modals/CreateParqueDialog.tsx:38-44 | `validate` gives the message of the first blank field in form order, null when none |
| ParkForm.Validate | src/components/Modals/CreateParqueDialog.tsx:38-44 | `validate` (`ValidateIsFirstBlank`, `TrimAllValidate`) |
| ParkForm.TrimAllValidate | src/components/Modals/CreateParqueDialog.tsx:46-48 | trimming first does not change the verdict, and the trimmed payload is its own trim |
| ParkForm.TrimAll | src/components/Modals/CreateParqueDialog.tsx:47 | every field trimmed (`TrimAllValidate`, `SubmittedIsClean`) |
| ParkForm.CreateParqueDialog.constructor | src/components/Modals/CreateParqueDialog.tsx:24-28 | empty fields, no error |
| ParkForm.CreateParqueDialog.Reset | src/components/Modals/CreateParqueDialog.tsx:30-36 | fields take the default value's (or `""`) and the error clears |
| ParkForm.CreateParqueDialog.Edit | src/components/Modals/CreateParqueDialog.tsx:58-61 | editing sets that one field and clears the error |
| ParkForm.CreateParqueDialog.Submit | src/components/Modals/CreateParqueDialog.tsx:46-51 | a valid trimmed payload is submitted; otherwise nothing is submitted and the error is set |
| ParkForm.SubmittedIsClean | src/components/Modals/CreateParqueDialog.tsx:46-50 | what is submitted has no blank and no padded field |
| ProfileSearch.ProfileParkId | src/screens/UserScreen/UserScreen.tsx:125 | `p._id \|\| p.id` |
| ProfileSearch.ToCandidate | src/screens/UserScreen/UserScreen.tsx:133-138 | a candidate carries the item's name, the kind, and `_id \|\| id` |
| ProfileSearch.ParkCandidates | src/screens/UserScreen/UserScreen.tsx:130-140 | every candidate's lower-cased name contains the query |
| ProfileSearch.ParkCandidatesMembership | src/screens/UserScreen/UserScreen.tsx:130-140 | a park contributes exactly its items whose name matches |
| ProfileSearch.SearchRequests | src/screens/UserScreen/UserScreen.tsx:124-128 | at most one request per park |
| ProfileSearch.SearchResults | src/screens/UserScreen/UserScreen.tsx:124-143 | every result matches the query and has the searched kind |
| ProfileSearch.SearchAppend | src/screens/UserScreen/UserScreen.tsx:124 | parks are searched in list order: results and requests distribute over concatenation |
| ProfileSearch.OnePark | src/screens/UserScreen/UserScreen.tsx:125-141 | a park without id is skipped with no request; otherwise one request, and a failure contributes nothing |
| ProfileSearch.CollectMatches | src/screens/UserScreen/UserScreen.tsx:130-140 | the inner push loop computes the park's candidates |
| ProfileSearch.SearchAllParks | src/screens/UserScreen/UserScreen.tsx:124-142 | the outer loop issues exactly the per-park requests and yields exactly the search results |
| ProfileSearch.FetchCandidates | src/screens/UserScreen/UserScreen.tsx:174-177 | a trimmed query shorter than 2 gives `[]` with no request; a failed park listing fails; otherwise the aggregated results |
| Profile.MongoIdIsTrimmed | src/screens/UserScreen/UserScreen.tsx:49-51 | a valid id's trim is space-free, trimmed, and valid |
| Profile.IsMongoId | src/screens/UserScreen/UserScreen.tsx:49-51 | 24 hexadecimal digits after trimming (`MongoIdIsTrimmed`, `CheckDeleteOrder`) |
| Profile.ValidateEmail | src/screens/UserScreen/UserScreen.tsx:200 | the profile's e-mail pattern (`ProfileEmailPassesLogin`, `SecondAtSign`) |
| Profile.ProfileEmailPassesLogin | src/screens/UserScreen/UserScreen.tsx:200 | every e-mail the profile accepts also passes the login check |
| Profile.SecondAtSign | src/screens/UserScreen/UserScreen.tsx:200 | `"a@b@c.d"` passes the login check but not the profile's |
| Profile.EmailFailure | src/screens/UserScreen/UserScreen.tsx:246-251 | detail, else 401/400/409 messages, else the generic one |
| Profile.PasswordFailure | src/screens/UserScreen/UserScreen.tsx:277-279 | detail, else the 401 message, else the generic one |
| Profile.DeleteFailure | src/screens/UserScreen/UserScreen.tsx:357-361 | detail, else `"Registro não encontrado."` for 404, else `"Não foi possível excluir."` |
| Profile.FirstWord | src/screens/UserScreen/UserScreen.tsx:106 | a space-free prefix ending at whitespace or the end |
| Profile.Words | src/screens/UserScreen/UserScreen.tsx:106 | `split(/\s+/)` of a trimmed text gives non-empty space-free words |
| Profile.Capitals | src/screens/UserScreen/UserScreen.tsx:107 | one upper-cased first letter per word |
| Profile.NameWords | src/screens/UserScreen/UserScreen.tsx:105-106 | the words of `name \|\| email \|\| "U"` are non-empty |
| Profile.FirstInitials | src/screens/UserScreen/UserScreen.tsx:106-107 | at most two initials, two when there are two words, each the upper-cased first letter |
| Profile.Initials | src/screens/UserScreen/UserScreen.tsx:104-108 | one letter per word of the name up to two, each the upper-cased first letter of its word |
| Profile.EmailGateOrder | src/screens/UserScreen/UserScreen.tsx:223-231 | the e-mail is trimmed, lower-cased and validated first, then a blank current password is refused; both pass iff no error |
| Profile.EmailGate | src/screens/UserScreen/UserScreen.tsx:223-231 | the checks before an e-mail change (`EmailGateOrder`) |
| Profile.CheckDeleteOrder | src/screens/UserScreen/UserScreen.tsx:324-336 | empty id, then non-hex id, then non-admin; a confirmed id is the 24-character trimmed id |
| Profile.CheckDelete | src/screens/UserScreen/UserScreen.tsx:324-336 | the checks of `onDelete` (`CheckDeleteOrder`) |
| Profile.UpdatedUser | src/screens/UserScreen/UserScreen.tsx:237-242 | a token in the reply replaces e-mail, token, role and active; otherwise only the e-mail changes |
| Profile.EntriesAfterEmailChange | src/screens/UserScreen/UserScreen.tsx:237-242 | storage holds the updated user, and the new token when one came |
| Profile.ApplyEmailChange | src/screens/UserScreen/UserScreen.tsx:237-242 | the store and session after a successful e-mail change |
| Profile.MissingPayloadIsRejected | src/screens/UserScreen/UserScreen.tsx:295-307 | a missing dialog payload fails validation with the name message |
| Profile.CreatePayload | src/screens/UserScreen/UserScreen.tsx:295-302 | the dialog's payload trimmed, or blank fields (`CreatePayloadValidation`) |
| Profile.CreatePayloadValidation | src/screens/UserScreen/UserScreen.tsx:295-304 | the posted payload is its own trim and validates as the dialog's; a missing one fails on the name |
| Profile.NameToSave | src/screens/UserScreen/UserScreen.tsx:204 | `name.trim() \|\| user.name` (`NameToSaveChoice`) |
| Profile.NameToSaveChoice | src/screens/UserScreen/UserScreen.tsx:204 | a typed name is saved trimmed, a blank one keeps the current name; the result is empty only when both are |
| Profile.ProfileScreen.constructor | src/screens/UserScreen/UserScreen.tsx:73-101 | fields start from the user's name and e-mail; no errors; event deletion, nothing searched |
| Profile.ProfileScreen.OnSaveName | src/screens/UserScreen/UserScreen.tsx:202-219 | no user: nothing; a blank name falls back to the current one, and an empty result alerts, with the dialog and spinner untouched; success signs in the renamed user and closes the dialog; failure alerts and leaves the session and the dialog open |
| Profile.ProfileScreen.OnSaveEmail | src/screens/UserScreen/UserScreen.tsx:221-256 | the gate's error is shown with no request, and the dialog, spinner and password stay; otherwise the normalised e-mail is sent; success updates session and storage, closes the dialog and clears the password; failure alerts the mapped message and keeps the dialog and password |
| Profile.ProfileScreen.SendEmailChange | src/screens/UserScreen/UserScreen.tsx:234-255 | the answered request: success closes the dialog and clears the password; failure leaves the session, the dialog and the password |
| Profile.ProfileScreen.OnSavePassword | src/screens/UserScreen/UserScreen.tsx:258-284 | short new password, then mismatch, are refused with no request and no alert, the fields, spinner and dialog unchanged; success clears all three fields and closes the dialog; failure alerts and keeps the fields and the dialog |
| Profile.ProfileScreen.OnCreateParque | src/screens/UserScreen/UserScreen.tsx:294-321 | the trimmed payload is validated; an invalid one sets the message with the dialog and spinner unchanged; only a valid one is sent; success alerts and closes, failure sets the error and keeps the dialog open |
| Profile.ProfileScreen.SendParque | src/screens/UserScreen/UserScreen.tsx:309-320 | the answered creation request: success alerts and closes the dialog; failure sets the error and keeps the dialog open |
| Profile.ProfileScreen.OnSearchDelete | src/screens/UserScreen/UserScreen.tsx:180-198 | query shown, error and results cleared, exactly one lookup pending for this query |
| Profile.ProfileScreen.OnChangeType | src/screens/UserScreen/UserScreen.tsx:606-611 | the new type, with query, results and error cleared; the selected id kept |
| Profile.ProfileScreen.OnSelect | src/screens/UserScreen/UserScreen.tsx:613 | the chosen id, with the error cleared |
| Profile.ProfileScreen.RunSearch | src/screens/UserScreen/UserScreen.tsx:188-196 | the timer's callback: the spinner ends off; a short query clears the results; a failed park listing sets the search error and keeps the results; otherwise the results are those of every park, in order; the error changes only on failure |
| Profile.ProfileScreen.OnSearchTimer | src/screens/UserScreen/UserScreen.tsx:187-197 | a fired timer runs `fetchCandidates` on its captured query, setting the error only when the park listing fails; a cleared one changes nothing, spinner included |
| Profile.ProfileScreen.OnDelete | src/screens/UserScreen/UserScreen.tsx:323-371 | refused and forbidden ids issue no delete and leave the id, query, results, dialog and spinner as they were; a valid id asks for confirmation, and only a confirmation deletes; success closes the dialog and clears id, query and results; failure sets the mapped message and keeps the rest |
| Profile.ProfileScreen.ConfirmDelete | src/screens/UserScreen/UserScreen.tsx:338-370 | cancel changes nothing; success alerts, closes the dialog and clears id, query and results; failure sets the mapped message and keeps the id, query, results and dialog |
| Admin.AuthHeaders | src/screens/AdminEditScreen/AdminEditScreen.tsx:85-88 | `token \|\| stored`, as a bearer header when truthy, else no header |
| Admin.HeadersFollowStorage | src/screens/AdminCreateScreen/AdminCreateScreen.tsx:77-80 | with no context token the headers are those `setAuthToken` would install for the stored token |
| Admin.NumberOf | src/screens/AdminCreateScreen/AdminCreateScreen.tsx:116-117 | `Number` of a digit string is its value |
| Admin.MinutesAccepted | src/screens/AdminCreateScreen/AdminCreateScreen.tsx:115-117 | a digit-only minutes field passes the checks iff some digit is not `0` |
| Admin.ReadyMinutes | src/screens/AdminCreateScreen/AdminCreateScreen.tsx:111-157 | a ready activity is a ready event, and sends a positive number of minutes |
| Admin.Minutes | src/screens/AdminCreateScreen/AdminCreateScreen.tsx:157 | `Number(atTempo)` of a digit field is the number its digits spell |
| Admin.EventReady | src/screens/AdminCreateScreen/AdminCreateScreen.tsx:108-109 | park selected, trimmed name and location non-empty (`ReadyMinutes`, `ClearedFormsAreNotReady`) |
| Admin.ActivityReady | src/screens/AdminCreateScreen/AdminCreateScreen.tsx:111-117 | the event checks plus positive minutes (`MinutesAccepted`, `ReadyMinutes`) |
| AdminEdit.JoinLines | src/screens/AdminEditScreen/AdminEditScreen.tsx:52 | `replace(/\r?\n/g, " ")` leaves no line feed and changes a text without one not at all |
| AdminEdit.Collapse | src/screens/AdminEditScreen/AdminEditScreen.tsx:52 | `replace(/\s{2,}/g, " ")` leaves no doubled whitespace, keeps the first character's kind, adds no line feed, and changes nothing already collapsed |
| AdminEdit.JoinLinesSteps | src/screens/AdminEditScreen/AdminEditScreen.tsx:52 | CRLF and a lone LF each become one space; any other character is kept |
| AdminEdit.JoinLinesNonSpace | src/screens/AdminEditScreen/AdminEditScreen.tsx:52 | joining lines keeps every non-whitespace character in order |
| AdminEdit.CollapseNonSpace | src/screens/AdminEditScreen/AdminEditScreen.tsx:52 | collapsing keeps every non-whitespace character in order |
| AdminEdit.OneLine | src/screens/AdminEditScreen/AdminEditScreen.tsx:52 | `oneLine`; its lemmas state its shape, content, blankness and idempotence |
| AdminEdit.OneLineNonSpace | src/screens/AdminEditScreen/AdminEditScreen.tsx:52 | `oneLine` keeps exactly the non-whitespace characters of its input, in order |
| AdminEdit.OneLineBlank | src/screens/AdminEditScreen/AdminEditScreen.tsx:52 | `oneLine` gives `""` exactly for a blank text |
| AdminEdit.NoDoubleSpaceSlice | src/screens/AdminEditScreen/AdminEditScreen.tsx:52 | a slice of a collapsed text is collapsed |
| AdminEdit.OneLineShape | src/screens/AdminEditScreen/AdminEditScreen.tsx:52 | `oneLine` has no line feed, no doubled whitespace and no surrounding whitespace |
| AdminEdit.OneLineIdempotent | src/screens/AdminEditScreen/AdminEditScreen.tsx:52 | `oneLine` is idempotent |
| AdminEdit.SameRequestsAsProfileSearch | src/screens/AdminEditScreen/AdminEditScreen.tsx:126-140 | the edit search asks what the profile's delete search asks for the same park |
| AdminEdit.SearchRequestNamesPark | src/screens/AdminEditScreen/AdminEditScreen.tsx:126-140 | different parks give different search requests |
| AdminEdit.EventHit | src/screens/AdminEditScreen/AdminEditScreen.tsx:133-137 | id `_id \|\| id`; the name, or `"(sem nome)"` |
| AdminEdit.ActivityHit | src/screens/AdminEditScreen/AdminEditScreen.tsx:145-149 | id `_id \|\| id`; the name, or `"(sem nome)"` |
| AdminEdit.SearchOutcome | src/screens/AdminEditScreen/AdminEditScreen.tsx:116-161 | a short query or no park clears the results with no request; otherwise the request of the mode for that park |
| AdminEdit.EventSearchResults | src/screens/AdminEditScreen/AdminEditScreen.tsx:125-155 | the results are exactly the events whose lower-cased name contains the query; a failure shows nothing and alerts |
| AdminEdit.ActivitySearchResults | src/screens/AdminEditScreen/AdminEditScreen.tsx:139-155 | the same for activities |
| AdminEdit.MinutesText | src/screens/AdminEditScreen/AdminEditScreen.tsx:189 | `String(at.tempo ?? "")` is a digit string |
| AdminEdit.LoadedMinutes | src/screens/AdminEditScreen/AdminEditScreen.tsx:189-231 | loaded minutes read back as the stored number; missing ones are empty |
| AdminEdit.AdminEditScreen.constructor | src/screens/AdminEditScreen/AdminEditScreen.tsx:60-83 | event mode, empty lists and fields, activity type `"trilha"` |
| AdminEdit.AdminEditScreen.OnMount | src/screens/AdminEditScreen/AdminEditScreen.tsx:90-109 | a non-administrator is alerted and sent back with no request; otherwise the parks load and the selection follows `SelectionAfterLoad` |
| AdminEdit.AdminEditScreen.OnChangeQuery | src/screens/AdminEditScreen/AdminEditScreen.tsx:163-167 | text shown; exactly one search pending, capturing text, mode and park |
| AdminEdit.AdminEditScreen.RunSearch | src/screens/AdminEditScreen/AdminEditScreen.tsx:116-161 | `runSearch` with the text, mode and park it captured: results and alert are those of `SearchOutcome`, any request issued is the one for that mode and park, and the spinner ends off |
| AdminEdit.AdminEditScreen.OnSearchTimer | src/screens/AdminEditScreen/AdminEditScreen.tsx:166 | a fired timer runs the search it captured; a cleared one changes nothing, spinner included |
| AdminEdit.AdminEditScreen.OnSelectParque | src/screens/AdminEditScreen/AdminEditScreen.tsx:303-306 | as written: the selection changes, and the immediate search uses the previous park |
| AdminEdit.AdminEditScreen.OnSelectParqueFresh | src/screens/AdminEditScreen/AdminEditScreen.tsx:303-306 | as intended: the immediate search asks for the park just selected |
| AdminEdit.AdminEditScreen.LoadSelected | src/screens/AdminEditScreen/AdminEditScreen.tsx:169-202 | an empty id does nothing; otherwise the item of the mode is fetched, and the form is filled from it or the selection is cleared with an alert; the other mode's form, and on a failure the park and this mode's form, are unchanged |
| AdminEdit.AdminEditScreen.LoadEvento | src/screens/AdminEditScreen/AdminEditScreen.tsx:175-196 | the event fields with their fallbacks, or the alert |
| AdminEdit.AdminEditScreen.LoadAtividade | src/screens/AdminEditScreen/AdminEditScreen.tsx:183-196 | the activity fields with their fallbacks, or the alert; the minutes stay digits |
| AdminEdit.AdminEditScreen.SetMode | src/screens/AdminEditScreen/AdminEditScreen.tsx:204-220 | another mode clears query, results, selection and that mode's fields; the other form is kept whole; the same mode changes nothing |
| AdminEdit.AdminEditScreen.EditMinutes | src/screens/AdminEditScreen/AdminEditScreen.tsx:461 | the minutes input keeps only digits |
| AdminEdit.AdminEditScreen.SaveEvento | src/screens/AdminEditScreen/AdminEditScreen.tsx:233-252 | nothing unless `canSaveEvento`; otherwise the `PUT` of the one-line payload with the stored token, and the success or detail alert |
| AdminEdit.AdminEditScreen.SaveAtividade | src/screens/AdminEditScreen/AdminEditScreen.tsx:254-274 | the same for activities |
| AdminEdit.SavedActivityIsClean | src/screens/AdminEditScreen/AdminEditScreen.tsx:224-265 | a saved activity names a park, has positive minutes, a non-empty location and a non-empty, single-line, already-normalised name |
| AdminEdit.SavedEventoIsClean | src/screens/AdminEditScreen/AdminEditScreen.tsx:222-243 | a saved event names a park; its name and location are non-empty single lines holding the typed non-whitespace characters in order |
| AdminEdit.AdminEditScreen.CanSaveEvento | src/screens/AdminEditScreen/AdminEditScreen.tsx:222 | `canSaveEvento`: a selected item and a ready event form (`SavedEventoIsClean` states what it guarantees) |
| AdminEdit.AdminEditScreen.CanSaveAtividade | src/screens/AdminEditScreen/AdminEditScreen.tsx:224-231 | `canSaveAtividade`: a selected item and a ready activity form (`SavedActivityIsClean`) |
| AdminEdit.AdminEditScreen.EventoPayload | src/screens/AdminEditScreen/AdminEditScreen.tsx:237-243 | the `PUT` body: names on one line, description trimmed (`SavedEventoIsClean`) |
| AdminEdit.AdminEditScreen.AtividadePayload | src/screens/AdminEditScreen/AdminEditScreen.tsx:258-265 | the `PUT` body: texts on one line, minutes as a number (`SavedActivityIsClean`) |
| AdminCreate.AdminCreateScreen.constructor | src/screens/AdminCreateScreen/AdminCreateScreen.tsx:59-75 | empty lists and fields, date `now`, type `"trilha"` |
| AdminCreate.AdminCreateScreen.OnMount | src/screens/AdminCreateScreen/AdminCreateScreen.tsx:82-101 | a non-administrator is alerted and sent back with no request; otherwise the parks load, a non-empty selection is kept, else the first park's id |
| AdminCreate.AdminCreateScreen.SelectParque | src/screens/AdminCreateScreen/AdminCreateScreen.tsx:220-224 | the selection becomes the chip's id, and the banner shows a park with that key when one is listed |
| AdminCreate.AdminCreateScreen.EditMinutes | src/screens/AdminCreateScreen/AdminCreateScreen.tsx:375 | the minutes input keeps only digits |
| AdminCreate.AdminCreateScreen.SubmitEvento | src/screens/AdminCreateScreen/AdminCreateScreen.tsx:119-145 | an incomplete form alerts with no request, the form and spinner unchanged; otherwise the trimmed payload is posted; success clears name, description and location and resets the date; failure alerts and keeps the form |
| AdminCreate.AdminCreateScreen.FinishEvento | src/screens/AdminCreateScreen/AdminCreateScreen.tsx:134-141 | the answered event request |
| AdminCreate.AdminCreateScreen.SubmitAtividade | src/screens/AdminCreateScreen/AdminCreateScreen.tsx:147-175 | the same for activities, keeping the minutes field all digits; success also resets the type to `"trilha"` |
| AdminCreate.AdminCreateScreen.FinishAtividade | src/screens/AdminCreateScreen/AdminCreateScreen.tsx:163-171 | the answered activity request |
| AdminCreate.PostedEventoIsClean | src/screens/AdminCreateScreen/AdminCreateScreen.tsx:108-132 | a ready event form posts a selected park and non-empty, trimmed name and location |
| AdminCreate.PostedAtividadeMinutes | src/screens/AdminCreateScreen/AdminCreateScreen.tsx:111-161 | a ready activity form posts the number the digits spell, which is positive, and a trimmed name |
| AdminCreate.ClearedFormsAreNotReady | src/screens/AdminCreateScreen/AdminCreateScreen.tsx:135-167 | the forms a success leaves behind cannot be submitted again as they are |
| AdminCreate.AdminCreateScreen.CanSubmitEvento | src/screens/AdminCreateScreen/AdminCreateScreen.tsx:108-109 | `canSubmitEvento` is `EventReady` (`PostedEventoIsClean`, `ClearedFormsAreNotReady`) |
| AdminCreate.AdminCreateScreen.CanSubmitAtividade | src/screens/AdminCreateScreen/AdminCreateScreen.tsx:111-117 | `canSubmitAtividade` is `ActivityReady` (`PostedAtividadeMinutes`, `ClearedFormsAreNotReady`) |
| AdminCreate.AdminCreateScreen.EventoPayload | src/screens/AdminCreateScreen/AdminCreateScreen.tsx:126-132 | the posted event, fields trimmed (`PostedEventoIsClean`) |
| AdminCreate.AdminCreateScreen.AtividadePayload | src/screens/AdminCreateScreen/AdminCreateScreen.tsx:154-161 | the posted activity, texts trimmed and minutes a number (`PostedAtividadeMinutes`) |
| Home.MapEvento | src/screens/HomeScreen/HomeScreen.tsx:58-66 | id `id ?? _id ?? nome-data`; title, date, location and description copied; no tags |
| Home.MapEventos | src/screens/HomeScreen/HomeScreen.tsx:58-59 | `mapEventos` keeps the length |
| Home.MapEventosAppend | src/screens/HomeScreen/HomeScreen.tsx:58-59 | `mapEventos` keeps order |
| Home.AggregateByPark | src/screens/HomeScreen/HomeScreen.tsx:92-97 | the mapped aggregate of several parks is the concatenation of each part's |
| Home.EventsRequests | src/screens/HomeScreen/HomeScreen.tsx:88-90 | one request per park id |
| Home.Filtered | src/screens/HomeScreen/HomeScreen.tsx:131-146 | sorted ascending by date, and a permutation of the kept events |
| Home.FilteredMembership | src/screens/HomeScreen/HomeScreen.tsx:133-144 | an event is listed iff it is loaded and passes the date and query filters |
| Home.Keep | src/screens/HomeScreen/HomeScreen.tsx:133-144 | the date and query filters (`FilteredMembership`, `WeekWindow`) |
| Home.ShowAllIsPermutation | src/screens/HomeScreen/HomeScreen.tsx:131-146 | with filter "all" and a blank query, `filtered` is a permutation of the events |
| Home.WeekWindow | src/screens/HomeScreen/HomeScreen.tsx:132-137 | the "week" filter keeps only events strictly inside the next seven days |
| Home.HomeScreen.constructor | src/screens/HomeScreen/HomeScreen.tsx:31-39 | no parks, no selection, loading, no error |
| Home.HomeScreen.LoadInitialFilter | src/screens/HomeScreen/HomeScreen.tsx:41-44 | a stored filter becomes the selection |
| Home.HomeScreen.FetchParques | src/screens/HomeScreen/HomeScreen.tsx:46-56 | the parks on success, none on failure; parks loading ends |
| Home.HomeScreen.OnSelectParque | src/screens/HomeScreen/HomeScreen.tsx:118-121 | selection set, persisted under `@parqueFiltro`, loading set |
| Home.HomeScreen.FetchEventos | src/screens/HomeScreen/HomeScreen.tsx:68-104 | one park: one request, its events or (on any failure) none and the error; all parks: one request per id and the mapped aggregate, no error |
| Home.NoParksNoEvents | src/screens/HomeScreen/HomeScreen.tsx:82-86 | zero park ids give no request and no events |
| Activities.Capitalize | src/screens/ActivitiesScreen/ActivitiesScreen.tsx:270-272 | only the first character is upper-cased; `""` stays `""` |
| Activities.CapitalizeIdempotent | src/screens/ActivitiesScreen/ActivitiesScreen.tsx:270-272 | capitalising twice is capitalising once |
| Activities.MapAtividade | src/screens/ActivitiesScreen/ActivitiesScreen.tsx:84-90 | id `id ?? _id ?? nome-parque_id`; title and location copied; subtitle `Capitalize(tipo) • tempo min` |
| Activities.MapAtividades | src/screens/ActivitiesScreen/ActivitiesScreen.tsx:84-85 | `mapAtividades` keeps the length |
| Activities.MapAtividadesPointwise | src/screens/ActivitiesScreen/ActivitiesScreen.tsx:84-90 | the i-th item comes from the i-th activity: its id fallback, title, subtitle and location |
| Activities.SubtitleMinutes | src/screens/ActivitiesScreen/ActivitiesScreen.tsx:88 | the subtitle is `capitalize(tipo) • <tempo> min`, the minutes being the decimal text of the number |
| Activities.Subtitle | src/screens/ActivitiesScreen/ActivitiesScreen.tsx:88 | the activity's subtitle (`SubtitleMinutes`) |
| Activities.TypeParams | src/screens/ActivitiesScreen/ActivitiesScreen.tsx:99-106 | `"all"` sends no `tipo` parameter; any other type sends exactly it |
| Activities.ActivitiesRequests | src/screens/ActivitiesScreen/ActivitiesScreen.tsx:125-130 | one request per park id |
| Activities.RejectedParkDropped | src/screens/ActivitiesScreen/ActivitiesScreen.tsx:134-144 | a rejected park contributes nothing and the others keep their order |
| Activities.Filtered | src/screens/ActivitiesScreen/ActivitiesScreen.tsx:183-189 | a blank query returns the list itself; otherwise every item kept matches |
| Activities.FilteredMembership | src/screens/ActivitiesScreen/ActivitiesScreen.tsx:186-188 | an item is kept iff its `title subtitle location`, lower-cased, contains the query |
| Activities.Matches | src/screens/ActivitiesScreen/ActivitiesScreen.tsx:186-188 | the query test (`FilteredMembership`) |
| Activities.ActivitiesScreen.constructor | src/screens/ActivitiesScreen/ActivitiesScreen.tsx:56-65 | no parks, no selection, type "all", loading, no error |
| Activities.ActivitiesScreen.LoadInitialFilter | src/screens/ActivitiesScreen/ActivitiesScreen.tsx:67-70 | a stored filter becomes the selection |
| Activities.ActivitiesScreen.FetchParques | src/screens/ActivitiesScreen/ActivitiesScreen.tsx:72-82 | the parks on success, none on failure; parks loading ends |
| Activities.ActivitiesScreen.FetchActivities | src/screens/ActivitiesScreen/ActivitiesScreen.tsx:92-153 | one park: its activities, none without error on 404, none with the error otherwise; all parks: one request per id and the aggregate of the fulfilled ones |
| Activities.ActivitiesScreen.OnSelectParque | src/screens/ActivitiesScreen/ActivitiesScreen.tsx:170-175 | selection set and persisted, then `fetchActivities(id, selectedTipo)`: that park's activities, none on 404, none with the error otherwise; `""` joins every park |

## Left out

- Rendering, styles, navigation calls (`goBack`, `navigate`, `reset`), themes and the presentational dialogs are not modelled. The dialogs are the name, e-mail, password and delete dialogs, the park bar and the banner.
- Real I/O is not modelled: axios, the request and response logging interceptors, AsyncStorage's asynchrony, `Alert` and `alert`. Responses are parameters and alerts are returned values.
- Concurrency and timing are not modelled. This covers the `Promise.allSettled` fan-out (modelled as outcomes in request order), the 300 ms delay of `setTimeout` (only the pending slot is modelled), and responses arriving out of order.
- The stale closures of the home and activities screens are not modelled. `onSelectParque` calls the `fetchEventos` of the previous render before the effect refetches. The model fetches once, for the selected park.
- Dates are integers. dayjs parsing, formatting, time zones and ISO text are not modelled, and the "today" same-day test is a parameter. `now` is a parameter. The date and time pickers (`onPickDate`, `onPickTime`) are not modelled.
- JSON of the stored user is modelled by a field codec whose round trip is proved, not by `JSON.stringify` / `JSON.parse` themselves.
- Lengths are counted in characters, not in UTF-16 code units as JavaScript's `length` counts them. This affects the login password minimum of 4, the new-password minimum of 6 and the 2-character query minimum of the delete and edit searches, for text outside the Basic Multilingual Plane.
- Whitespace and case are ASCII only. `\s`, `trim` and `toLowerCase` / `toUpperCase` on other Unicode characters are not modelled.
- `Number(atTempo)` is modelled only on digit strings. The typed minutes hold digits because the input keeps only the digits typed. The minutes filled in by `loadSelected` (`String(at.tempo ?? "")`) hold digits only because the model types the backend's `tempo` as a natural number; a negative or fractional `tempo` from the backend is not modelled. NaN, floats and very long numbers are not modelled.
- A response body without its list (`data?.parques ?? []` and similar) is the same as an empty list.
- The session context never provides `token`, so the administrator screens always read the stored token. The in-memory header is not refreshed when an e-mail change brings a new token.
- `Login.LoginScreen.OnSubmit`: the session user's `id` (`String(Date.now())`) is taken from the `now` parameter, not from a clock.
- `Home.Filtered`: the sort is stated as ascending and a permutation. Whether equal dates keep their relative order, which depends on the engine's sort, is not stated.
- `Profile.ProfileScreen.OnSaveEmail`: the screen's `user` value used to rebuild the session is the one in the provider.
- The create-screen mode switch only chooses which form is shown. Nothing submitted depends on it, so the mode is not modelled.
- Park creation through the profile screen returns the payload sent. The `POST /parques` path itself is not part of that contract.
- The edit and create screens' plain text setters are not modelled as members: each sets one field.

## Findings

| source | as written | input that shows it | evidently intended | confidence | as-written member | corrected member |
|---|---|---|---|---|---|---|
| src/screens/AdminEditScreen/AdminEditScreen.tsx:303-306 | the park bar sets the selection and then calls the `runSearch` of the current render, whose closure still holds the previous `selectedParqueId` | park `a` selected, query `"tr"`, the user picks park `b`: the request is `GET /eventos?parque_id=a…`, and by `SearchRequestNamesPark` it differs from the request for `b` | the immediate search lists the park just picked | high, not executed | AdminEdit.AdminEditScreen.OnSelectParque | AdminEdit.AdminEditScreen.OnSelectParqueFresh |

The `BASE` normalisation of `src/services/api.ts:4` is not idempotent as written (`Api.NormalizeBaseNotIdempotent`). Only the restricted form `Api.NormalizeBaseIdempotent` is proved.
