# TransplantLink request rules and client state, in Dafny

TransplantLink is a small organ-donation portal: a Flask JSON API over a MySQL
schema (users, donors, patients, organs, transactions) and a React client
that lists, creates and deletes those records behind a session guard. This
project models the decision logic of both halves and proves what it
promises.

- `json.dfy` (module `Json`): JSON values as both languages see them. It has
  Python and JavaScript truthiness, `dict.get` and optional property access,
  and `a || b`. It also has the string operations the code relies on: ASCII
  lower-casing, Python's `strip`, `includes`, `join`, `String(v)` and
  `encodeURIComponent` (UTF-8 percent encoding).
- `seqs.dfy` (module `Seqs`): order-preserving subsequences.
- `api.dfy` (module `Api`): the backend handlers of `api.py`. The database is
  a set of parameters: fetched rows, column lists, row counts, lookup rows and
  "this statement raised" flags. Each handler yields the HTTP response
  together with the writes it issued (`Insert`, `Delete`, `Commit`).
  - The pure parts are functions with lemmas: the login guard, `rows`, the
    create validation and INSERT lists, detail/delete, and the organ rule.
  - The parts the source writes step by step are methods. `stats_summary`
    fills its dict in a loop and `reports_summary` overwrites a dict key by
    key. `matching_manual` appends the Transaction columns one by one and
    tracks `inserted`. Each method is proved against specification
    functions.
- `http.dfy` (module `Http`): the client's requests and replies. It holds the
  error-text precedence `error` > `message` > default. It also holds the
  axios response interceptor, as a `Browser` class whose `Intercept` method
  updates localStorage and the redirect log.
- `list_page.dfy` (module `ListPage`): the three list pages. They share one
  `ListController` class: the load effect under its `mounted` flag, the search
  box, and delete-then-refetch. The search filter is a pure function with its
  meaning proved.
- `session_guard.dfy` (module `SessionGuard`): `ProtectedRoute` as a
  four-state machine (`no-token`, `checking`, `ok`, `unauthed`) with the
  effect's `active` flag. Proofs about arbitrary event sequences sit beside
  it.
- `forms.dfy` (module `Forms`): the submit handlers. AddUser, RegisterDonor
  and RegisterPatient are one `CreateForm` class, each configured by a
  `FormSpec`. EditUser and Login are classes of their own.
- `wiring.dfy` (module `Wiring`): what a create form that passes its own
  check makes the backend store.

Every class keeps the page's state in fields. Its methods are specified by a
pure step function of the old state (`State() == SubmitStep(spec,
old(State()), reply)`), and the step functions carry the properties.

## Model

| member | source | states |
|---|---|---|
| Json.Get | api.py:133 | `data.get(f)` is None for an absent key and the stored value for a present one |
| Json.Prop | frontend/src/services/api.js:15 | `v?.k` is the property when `v` is an object holding `k`, and undefined in every other case |
| Json.JsOr | frontend/src/pages/Auth/Login.jsx:28 | `a \|\| b` is truthy iff `a` or `b` is, and then it is the first truthy operand; a falsy result is `b` |
| Json.LowerIdempotent | api.py:317-318 | lower-casing twice equals lower-casing once, and no upper-case ASCII letter is left |
| Json.StripIgnoresSurroundingSpace | api.py:317-318 | white space added around a text does not change its `strip()` |
| Json.StripLower | api.py:317-318 | `strip()` and `lower()` commute, since lower-casing neither creates nor removes white space |
| Json.StripSpec | api.py:317-318 | `strip()` returns a slice of the input whose ends are not white space, and everything cut off is white space (Python's `isspace` set) |
| Json.NatToStringRoundTrip | frontend/src/pages/Patients/PatientList/index.jsx:73 | the decimal text of a numeric id is all digits, has no leading zero and reads back as the id |
| Json.EncodeUriComponentAlphabet | frontend/src/pages/Patients/PatientList/index.jsx:73 | `encodeURIComponent` output holds only unreserved characters, `%` and hex digits, and never a `/` |
| Json.EncodeUriComponentUnreserved | frontend/src/pages/Patients/PatientList/index.jsx:73 | a string of unreserved characters is encoded as itself |
| Api.RequireLogin | api.py:38-41 | no answer iff the session's `login` is truthy; otherwise 401 `{"error": "unauthorized"}` |
| Api.RequestData | api.py:131 | `get_json(silent=True) or {}` gives a dict iff the body is falsy or an object: the empty dict for a falsy body, the object's fields for an object |
| Api.RowDictKeys | api.py:43-46 | a row's dict has exactly the zipped column names as keys |
| Api.RowDictAt | api.py:43-46 | each column maps to the row's value at its position, unless the same name recurs later |
| Api.Rows | api.py:43-46 | one dict per fetched row, in fetch order |
| Api.ListAll | api.py:122-127 | 401 and no write when logged out; otherwise 200 whose list is `rows(cur)` of the fetched rows, one dict per row, in order |
| Api.Detail | api.py:149-157 | 401 when logged out; otherwise 404 iff nothing was fetched, else 200 with the first row's dict; no writes |
| Api.DeleteRecord | api.py:159-167 | 401 when logged out; otherwise the DELETE and commit run, and the answer is 404 `not found` iff the row count is 0, else `deleted` |
| Api.MissingSpec | api.py:132-133 | the missing fields are exactly the required ones that are absent, None or `''`, in the required list's order |
| Api.PresentSpec | api.py:136-137 | the users INSERT columns are exactly the listed columns the body carries, in the list's order |
| Api.InsertRowSpec | api.py:136-138 | the INSERT's columns and values line up; `''` becomes None and every other value passes unchanged; the columns follow the route's list |
| Api.Create | api.py:128-147 | logged out gives 401; any missing field gives 400 naming the missing fields and writes nothing; a failed insert gives 500 with no write; otherwise one INSERT and a commit, answered 201 with `created` and the route's echoed body fields |
| Api.CreateInsertsOnlyComplete | api.py:177-195 | any write implies a logged-in session, a dict body and no blank required field, and then it is exactly one INSERT plus a commit |
| Api.StatsSummary | api.py:265-282 | exactly the keys users, donors, patients and matches, each the table's count or None when its count failed |
| Api.ReportsSummary | api.py:371-400 | exactly the keys patients, donors, confirmed, pending; patients/donors are the count or None; confirmed/pending are the count only when Transaction exists and the count succeeded, else 0 |
| Api.OrganKey | api.py:317-318 | a falsy organ reads as `''`; a truthy string gives that string stripped and lower-cased; a truthy non-string gives none (`.strip()` raises) |
| Api.OrganKeyOfString | api.py:317-318 | every string, the empty one included, keys to its stripped, lower-cased form |
| Api.OrgansMatchSpec | api.py:317-320 | for any two stored organ values whose keys exist, they match iff both are strings whose stripped, lower-cased forms are equal and non-empty, so a blank, missing or non-string organ never matches |
| Api.OrgansMatchIgnoresCaseAndSpace | api.py:317-320 | for every organ name, white space around it and the case of its letters do not change its key |
| Api.MatchRejection | api.py:292-320 | falsy patient_id or donor_id gives 400; a raising lookup gives 500; a missing row gives 404; once both rows are found, an organ that is a truthy non-string gives 500 and two keys that do not match give 400 `organs do not match`; the pair is accepted iff both organ keys exist, are non-empty and are equal |
| Api.Available | api.py:326-354 | a column is set iff the table has it, and for Organ_ID also an id exists |
| Api.SetColumnsSnoc | api.py:326-354 | considering one more column appends it exactly when it is set |
| Api.ValuesForAt | api.py:326-354 | each value sits at its column's position and is that column's value |
| Api.SetColumnsSpec | api.py:326-354 | the columns set are exactly those of the order that are set, as a subsequence of the order |
| Api.TransactionFieldsSpec | api.py:326-354 | the Transaction columns are those the table has (Organ_ID also needs an id), in the order Patient_ID, Donor_ID, Organ_ID, Date_of_transaction, Status |
| Api.TransactionValuesAligned | api.py:326-354 | one value per column: pid, did, the organ id, today, or 1 for Status; Organ_ID is stored only with a non-None id |
| Api.ResolveOrgan | api.py:330-346 | the organ step yields a found id, or inserts the donor's truthy organ and uses its new id, or yields None; it inserts iff it created the id |
| Api.TransactionFieldsUnrolled | api.py:326-354 | the ordered column list equals the five conditional appends |
| Api.AlignedValuesFor | api.py:326-354 | value lists aligned with their columns are the values the specification computes |
| Api.AppendColumn | api.py:326-329 | one conditional append adds the column when its test holds and keeps each value aligned with its column |
| Api.AppendTransactionColumns | api.py:325-354 | the five appends produce exactly the specified columns and values |
| Api.BuildTransactionRow | api.py:324-354 | the appended columns, values and organ insert equal their specification functions |
| Api.MatchingManual | api.py:286-369 | rejections write nothing; an accepted pair is answered 200 `match created` with both rows; `persisted` is true iff Transaction exists, some column is set and the insert did not raise; the writes are the organ insert then the Transaction INSERT and commit |
| Http.ErrorText | frontend/src/pages/Users/AddUser/index.jsx:43 | the server's `error` wins, then its `message`, then the page's default; with a non-empty default the result is truthy |
| Http.ErrorTextShowsServerError | frontend/src/pages/Donors/RegisterDonor/index.jsx:35 | an answer in the API's `{"error": msg}` shape shows `msg` |
| Http.ErrorTextWithoutResponse | frontend/src/pages/Patients/RegisterPatient/index.jsx:35 | a rejection without a server answer shows the default |
| Http.InterceptStep | frontend/src/services/api.js:12-24 | success and non-401 errors change nothing; a 401 removes only `token` and redirects to /login iff the path is not /login; the path never changes |
| Http.InterceptIdempotentAtLogin | frontend/src/services/api.js:15-20 | on /login, handling a reply twice is the same as handling it once |
| Http.Browser.constructor | frontend/src/services/api.js:15-20 | the browser environment the interceptor reads and writes (localStorage, the current path) starts as given, with no redirect |
| Http.Browser.Intercept | frontend/src/services/api.js:12-24 | the reply is passed on or re-rejected unchanged, and the browser state moves by InterceptStep |
| ListPage.SomeTruthySpec | frontend/src/pages/Users/ViewUsers/index.jsx:33 | `.filter(Boolean).some(...)` holds iff some truthy value's lower-cased text contains the query |
| ListPage.KeepSpec | frontend/src/pages/Users/ViewUsers/index.jsx:31-34 | a record is kept iff the query is empty or a truthy searched field's text contains the query, ignoring ASCII case |
| ListPage.KeepReadsOnlySearchFields | frontend/src/pages/Patients/PatientList/index.jsx:33 | records that agree on the searched fields are kept or dropped together (Patient_ID is not searched) |
| ListPage.KeepIgnoresQueryCase | frontend/src/pages/Donors/DonorList/index.jsx:32 | a query and its lower-cased form select the same records |
| ListPage.FilteredSpec | frontend/src/pages/Users/ViewUsers/index.jsx:31-34 | an empty query keeps every record; otherwise a record is shown iff it is loaded and kept, each kept record as many times as it was loaded; the result is an order-preserving subsequence |
| ListPage.FilteredAppend | frontend/src/pages/Users/ViewUsers/index.jsx:31-34 | filtering two lists joined equals joining their filtered lists |
| ListPage.Shown | frontend/src/pages/Users/ViewUsers/index.jsx:61-65 | the loading row iff loading; "nothing found" iff not loading and none match; otherwise exactly the visible records |
| ListPage.AsArray | frontend/src/pages/Users/ViewUsers/index.jsx:18 | an array response is taken as it is, anything else as `[]` |
| ListPage.StartStep | frontend/src/pages/Users/ViewUsers/index.jsx:12-16 | the effect sets mounted and loading and keeps records and error |
| ListPage.LoadStep | frontend/src/pages/Patients/PatientList/index.jsx:16-25 | once unmounted nothing changes; otherwise loading ends, a success replaces the records by the array (or `[]`), a failure keeps them and sets the page's load error |
| ListPage.UnmountStep | frontend/src/pages/Donors/DonorList/index.jsx:28 | the cleanup clears mounted and nothing else |
| ListPage.NoUpdateAfterUnmount | frontend/src/pages/Donors/DonorList/index.jsx:12-28 | after unmount any sequence of settling replies leaves the state as it is |
| ListPage.PatientDeletePathShape | frontend/src/pages/Patients/PatientList/index.jsx:73 | a numeric patient is deleted at `/patients/<digits>/<encoded organ>` with no extra path segment |
| ListPage.DeleteStep | frontend/src/pages/Users/ViewUsers/index.jsx:79 | a declined confirm sends nothing; a failed DELETE alerts and keeps the records; otherwise the DELETE and a GET are sent, and the refetched array (or `[]`) replaces the records, or a failed refetch alerts and keeps them |
| ListPage.DeleteKeepsOnFailure | frontend/src/pages/Donors/DonorList/index.jsx:73 | loading, error and mounted never change, and the records change only when DELETE and refetch both succeed |
| ListPage.ListController.constructor | frontend/src/pages/Users/ViewUsers/index.jsx:6-9 | no records, loading, no error, empty query |
| ListPage.ListController.Start | frontend/src/pages/Users/ViewUsers/index.jsx:11-16 | sends the GET of the resource's root and moves by StartStep |
| ListPage.ListController.LoadDone | frontend/src/pages/Users/ViewUsers/index.jsx:17-25 | moves by LoadStep |
| ListPage.ListController.Unmount | frontend/src/pages/Users/ViewUsers/index.jsx:28 | moves by UnmountStep |
| ListPage.ListController.TableBody | frontend/src/pages/Users/ViewUsers/index.jsx:61-65 | the loading row iff loading; with an empty query every loaded record; otherwise exactly the kept records, in order, or "nothing found" when none is kept |
| ListPage.ListController.SetQuery | frontend/src/pages/Users/ViewUsers/index.jsx:41 | sets the query and nothing else |
| ListPage.ListController.Delete | frontend/src/pages/Patients/PatientList/index.jsx:73 | sends, alerts and moves by DeleteStep |
| SessionGuard.Render | frontend/src/components/ProtectedRoute.jsx:24-26 | redirect to /login iff no-token or unauthed; placeholder iff checking; the page iff ok |
| SessionGuard.InitialStatus | frontend/src/components/ProtectedRoute.jsx:7 | `checking` iff a token is present, else `no-token` |
| SessionGuard.EffectStep | frontend/src/components/ProtectedRoute.jsx:9-12 | the effect does nothing unless checking; then it activates and sends GET /auth/me |
| SessionGuard.CleanupStep | frontend/src/components/ProtectedRoute.jsx:21 | the cleanup clears `active` only |
| SessionGuard.SettleStep | frontend/src/components/ProtectedRoute.jsx:13-19 | success moves to ok and failure moves to unauthed, each only while active; a failure always clears the token |
| SessionGuard.StepKeepsInv | frontend/src/components/ProtectedRoute.jsx:9-22 | a check pending under an active effect only exists in `checking` |
| SessionGuard.LeftCheckingIsTerminal | frontend/src/components/ProtectedRoute.jsx:10 | ok, unauthed and no-token are terminal under any events |
| SessionGuard.TokenClearedStays | frontend/src/components/ProtectedRoute.jsx:16-17 | a cleared token stays cleared; with no check pending and none started, it is never cleared |
| SessionGuard.NoTokenNeverChecks | frontend/src/components/ProtectedRoute.jsx:7-10 | without a token the guard never checks and always redirects to /login |
| SessionGuard.CheckOutcome | frontend/src/components/ProtectedRoute.jsx:9-26 | with a token, success shows the page and failure clears the token and redirects; a reply after cleanup changes no status but a failure still clears the token |
| SessionGuard.ProtectedRoute.constructor | frontend/src/components/ProtectedRoute.jsx:7 | starts in InitialStatus with nothing pending |
| SessionGuard.ProtectedRoute.RunEffect | frontend/src/components/ProtectedRoute.jsx:9-20 | moves and sends by EffectStep |
| SessionGuard.ProtectedRoute.Cleanup | frontend/src/components/ProtectedRoute.jsx:21 | moves by CleanupStep |
| SessionGuard.ProtectedRoute.Settle | frontend/src/components/ProtectedRoute.jsx:13-19 | moves by SettleStep |
| Forms.EmptyForm | frontend/src/pages/Users/AddUser/index.jsx:7-16 | every input of the form, each `''` |
| Forms.Payload | frontend/src/pages/Users/AddUser/index.jsx:32-39 | keys are the form's plus the optional ones; required inputs are sent as typed; an optional input is null iff empty and never `''` |
| Forms.SubmitStep | frontend/src/pages/Users/AddUser/index.jsx:23-47 | no POST iff a required input is empty, and then only the validation error shows; otherwise the POST of the payload; success resets every input and shows the success text; failure keeps the form and shows ErrorText; loading ends |
| Forms.SubmitShowsOneBanner | frontend/src/pages/Donors/RegisterDonor/index.jsx:19-39 | after a submit exactly one of message and error shows |
| Forms.CreateFormsShowTexts | frontend/src/pages/Patients/RegisterPatient/index.jsx:23-35 | the validation, success and failure texts are non-empty, so every banner they set is visible |
| Forms.CreateForm.constructor | frontend/src/pages/Donors/RegisterDonor/index.jsx:6-15 | empty form, not loading, no banner |
| Forms.CreateForm.Change | frontend/src/pages/Patients/RegisterPatient/index.jsx:17 | sets one input and nothing else |
| Forms.CreateForm.Submit | frontend/src/pages/Patients/RegisterPatient/index.jsx:19-39 | sends and moves by SubmitStep |
| Forms.LoadedProfile | frontend/src/pages/Users/EditUser/index.jsx:20-21 | name and email default to `''` and role to `Staff`; the role is always truthy; a non-object answer gives the defaults |
| Forms.EditLoadStep | frontend/src/pages/Users/EditUser/index.jsx:17-26 | once unmounted nothing changes; otherwise loading ends, a success loads the profile, a failure sets `Failed to load user.`; a load never schedules a navigation |
| Forms.UpdateErrorText | frontend/src/pages/Users/EditUser/index.jsx:45 | the server's truthy `message`, else `Failed to update user.`; never falsy, so the error banner always shows |
| Forms.UpdateIgnoresServerError | frontend/src/pages/Users/EditUser/index.jsx:45 | an answer in the API's `{"error": msg}` shape shows the default here, where ErrorText would show `msg` |
| Forms.EditSubmitStep | frontend/src/pages/Users/EditUser/index.jsx:34-49 | no PUT iff name or email is falsy, with the validation error; otherwise the PUT of the form; success shows `User updated!` and schedules /users; failure shows UpdateErrorText; saving ends |
| Forms.EditUser.constructor | frontend/src/pages/Users/EditUser/index.jsx:9-13 | the default profile, loading, not saving, no banner |
| Forms.EditUser.Start | frontend/src/pages/Users/EditUser/index.jsx:16-19 | sends GET of the user and sets mounted |
| Forms.EditUser.LoadDone | frontend/src/pages/Users/EditUser/index.jsx:19-26 | moves by EditLoadStep |
| Forms.EditUser.Unmount | frontend/src/pages/Users/EditUser/index.jsx:29 | clears mounted only |
| Forms.ProfileWith | frontend/src/pages/Users/EditUser/index.jsx:32 | the body the form sends gets the changed key set to the typed text; a name that is not an input leaves the profile unchanged |
| Forms.EditUser.Change | frontend/src/pages/Users/EditUser/index.jsx:32 | changes the form by ProfileWith and nothing else |
| Forms.EditUser.Submit | frontend/src/pages/Users/EditUser/index.jsx:34-49 | sends and moves by EditSubmitStep |
| Forms.TokenOf | frontend/src/pages/Auth/Login.jsx:28 | the stored token is the answer's truthy `token`, else `session`, and it is always truthy |
| Forms.LoginSubmitStep | frontend/src/pages/Auth/Login.jsx:17-37 | no request iff username or password is empty, with the validation error; otherwise the POST of both, with the typed credentials kept in the form; success stores TokenOf and navigates to /; failure keeps the token, stays, and shows ErrorText; loading ends |
| Forms.LoginOutcome | frontend/src/pages/Auth/Login.jsx:24-36 | a submitted login either stores a truthy token and leaves for /, or stays with a visible error |
| Forms.Login.constructor | frontend/src/pages/Auth/Login.jsx:9-11 | empty credentials, not loading, no error |
| Forms.Login.Change | frontend/src/pages/Auth/Login.jsx:13-15 | sets username or password and nothing else |
| Forms.Login.Submit | frontend/src/pages/Auth/Login.jsx:17-37 | sends and moves by LoginSubmitStep |
| Wiring.FormsRequireWhatHandlersRequire | frontend/src/pages/Users/AddUser/index.jsx:26 | each create form checks the same required fields, in the same order, as its handler (api.py:132, 181, 229) |
| Wiring.CompleteFormHasNothingMissing | api.py:133 | a form that passes its own check has no missing field at the handler |
| Wiring.CompleteFormIsCreated | api.py:128-147 | a complete form from a logged-in session is answered 201 with one INSERT and a commit, and each stored value is the typed text, `''` as NULL |
| Wiring.AddUserStoredColumns | api.py:136-137 | of a full AddUser form the handler stores exactly the inputs its column list names, in that list's order |
| Wiring.AddUserColumnsOverlap | api.py:136 | those are User_ID, Name, Date_of_Birth and City |
| Wiring.RegisterFormsStoreAllColumns | api.py:185 | the donor and patient handlers' column lists are exactly their forms' input lists |
| Wiring.RegisterFormsSendEveryColumn | api.py:185 | a RegisterDonor or RegisterPatient form holding all its inputs sends a value for every column its handler inserts |

## Left out

- Floating-point numbers: JSON numbers are integers here, so NaN, `0.0` and float formatting in `String(v)` are not modelled.
- Case mapping outside ASCII: `toLowerCase()` and `lower()` are modelled on ASCII letters only.
- Flask routing, URL decoding, `<int:...>` converters, CORS, cookies and session storage: the session is a map given to each handler.
- The database: `get_db`, `teardown_db`, cursors and SQL are not modelled. `table_exists` and `get_table_columns` are inputs; they already turn their own failures into False and `[]`. The ops list holds the statements that ran and were committed (an insert or commit that raises leaves nothing), plus the Organ_available insert of `matching_manual`, which is listed once it ran even when no later commit follows it.
- An exception in a list, detail or delete query escapes to Flask's 500 page. Those three handlers take the query result as given; the create, stats, reports and matching handlers model their failures.
- A truthy JSON body that is not an object makes `data.get` raise; this is modelled as `Unhandled`, Flask's generic 500.
- `login`: its 400 `missing credentials` check, the credential query against the `login` table, the 401 `invalid credentials` and 500 `server error` answers, and the session keys it sets are not modelled; `LoggedIn` stands for the `session['login']` flag it leaves behind.
- `logout`, `me`, `ping` and `/reports/matches`: the first three only clear or read session keys and answer a fixed shape; `/reports/matches` is evaluated in SQL.
- Api.BuildTransactionRow: runs the organ step before the five appends, while `matching_manual` runs it between the Donor_ID and Organ_ID appends. The appends only touch local lists, so the results are the same.
- The `cur.lastrowid` of the Organ_available insert is an input (`newId`), and `datetime.now().date()` is the `today` parameter.
- `auth.js` is not part of this model. `isAuthed()` is the ProtectedRoute constructor's flag, `clearToken()` is `tokenCleared`, and `setToken()` is Login's `token` field.
- React scheduling, the event loop, StrictMode's double effects, axios itself and `setTimeout`. Each awaited call is a `Reply` input, one effect instance is modelled at a time, and a scheduled navigation is appended to `scheduled`.
- `window.confirm`, `alert` and the alert texts: confirm is the `confirmed` input, and the alert is a returned flag.
- JSX markup, layouts, tables, the Dashboard, DeleteUser and Logout pages, the stub pages (matching, reports, profile), `useAuth` and `endpoints.js`. Their paths are written out where they are used.
- ListPage.KeepSpec: a record that is `null` or `undefined` makes `u.Name` throw in JavaScript. The model reads its fields as undefined, so such a record is dropped for a non-empty query instead of crashing the page.
- Forms.Login.Change: the page copies any input name into its form. The model keeps only `username` and `password`, the only keys it reads.
- Forms.ProfileWith: the page copies any input name into its form, and the PUT body would then carry that extra key. The page's only inputs are `name`, `email` and `role`, so the model keeps those three.
- Forms.LoadedProfile: EditUser reads lower-case `name`, `email` and `role`, while `users_detail` answers with the User table's columns (`Name`, ...), and `api.py` has no PUT route for users. The model follows the page as written and does not connect it to the backend.
