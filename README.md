# MediGate mobile client: data layer in Dafny

This project models the data layer of the MediGate patient app, an Expo /
React Native client. It covers:

- **Configuration** (`constants/config.ts`): the base-URL switch between the
  bundled-fixture "local" mode and a remote backend, the request timeout, and
  the table of endpoint templates with their `:id` placeholders.
- **API client** (`services/api/client.ts`): URL building with placeholder
  substitution, the local dispatcher that answers from the bundled fixture
  (`private/user-data.json`), and the remote `fetch` path with its headers, body and
  three outcomes (ok, HTTP error, thrown error).
- **Secure storage** (`services/storage/secureStorage.ts`): a string-keyed store
  whose reads swallow failures and whose writes and removes propagate them.
  It also models the token, user-data and logout helpers.
- **User service** (`services/api/userService.ts`): login and register answers,
  persistence of the user record, logout, profile fetch and update.
- **Seven domain services** (appointments, health records, medications,
  notifications, doctors, pharmacies, emergency contacts): their calls as
  (verb, template, parameters, body), and their client-side filters, sort,
  count and limit.
- **Feedback service** (`services/api/feedbackService.ts`): a newest-first list
  of submissions with submit, history, lookup, delete and clear.
- **DataContext** (`contexts/DataContext.tsx`): the app-wide state object,
  with the bulk reload, login/logout, profile update, and the per-item
  replace and append operations.
- **Report screen** (`app/report/index.tsx`): validation, payload and
  submission of the feedback form.
- **Account-setup wizard** (`app/account-setup/index.tsx`): the three-step
  wizard.

How the JavaScript side is represented:

- **JSON values** are a `Json` datatype. JavaScript truthiness (`Truthy`) is a
  predicate on it, and `Present` holds of an optional value that is defined
  and truthy (what a condition on `x?.y` asks).
- **Response envelope.** Every service answer is the `ApiResponse<T>` envelope:
  `success`, optional `data`, `message` and `error`.
- **Exceptions.** A call that may throw returns a `Completion`, either a value
  or the thrown exception.
- **Effects.** Anything the app reads from outside becomes a parameter:
  - the fetch outcome;
  - whether a storage call fails;
  - the clock;
  - the random id fragment;
  - `navigator`;
  - date parsing;
  - `JSON.stringify` and `JSON.parse`;
  - the answers of the services a screen awaits.
- **Mutable objects.** The objects whose fields the app mutates are classes:
  - `ApiClient`;
  - `SecureStorageService`, with a map of entries;
  - `UserService`;
  - `FeedbackService`, with its list;
  - `DataProvider`, for the React state;
  - `ReportForm`;
  - the wizard.

  Their methods state the complete new state. The services and screen logic
  that only compute are functions, with lemmas relating them.

Where the repository's description and its code disagree, the model follows
the code. The description says logging out of `DataContext` always resets the
state. In `contexts/DataContext.tsx:111-130`, however, the reset sits after
`await userService.logout()` inside the `try`, so it happens only when that
call returns. Because of finding (a) below, that call never returns.

## Model

| member | source | states |
|---|---|---|
| Config.BaseUrl | constants/config.ts:16 | The base URL is the environment value when it is set and non-empty, and the literal `local` otherwise; it is never empty |
| Config.LocalModeIff | constants/config.ts:16 | Fixture mode holds exactly when the variable is unset, empty, or the string `local` |
| Config.Path | constants/config.ts:29-74 | Every endpoint template starts with `/api/` |
| Config.TemplatesDistinct | constants/config.ts:29-74 | Two endpoint keys share a template only if they are the same key or both are among the three appointment by-id keys |
| Config.IdSplit | constants/config.ts:41-66 | A template either contains no `:` at all, or is `pre + ":id" + post` with no other `:` in it |
| Text.ReplaceFirst | services/api/client.ts:75 | String replace with a string pattern: the first occurrence is replaced, and the text is unchanged when the pattern is absent |
| Text.ParseIntRoundTrip | services/api/client.ts:179 | parseInt of the decimal rendering of an id gives the id back |
| Text.TrimEmptyIff | app/report/index.tsx:50-57 | A string trims to empty exactly when every character is whitespace |
| Text.TrimKeepsAt | app/report/index.tsx:66-71 | Trimming never drops a character that is not whitespace |
| Lists.Filter | services/api/appointmentService.ts:68-71 | Array filter: the result is an order-preserving sub-list, every element satisfies the predicate, and every satisfying input element is kept |
| Lists.FilterCounts | services/api/appointmentService.ts:68-71 | Array filter keeps every copy of a passing element and no copy of a failing one |
| Lists.FilterPartition | services/api/appointmentService.ts:68-89 | A predicate and its negation split a list: the lengths and multisets add up to the input's |
| Lists.SliceTo | services/api/healthRecordService.ts:71 | `slice(0, k)` is the prefix of length min(k, n), and the whole list for k >= n |
| Js.FindById | contexts/DataContext.tsx:152 | `find` by id returns the first element with that id, and nothing when no element has it |
| Client.SubstituteUnmatched | services/api/client.ts:69-77 | Parameters whose `:key` does not occur leave the template unchanged |
| Client.SubstituteId | services/api/client.ts:74-76 | Substituting an id into `pre:idpost` yields `pre + id + post` |
| Client.ByIdUrl | services/api/client.ts:69-80 | A by-id call's URL is the prefix (empty in local mode, the base URL otherwise) + the template's head + the decimal id + its tail |
| Client.Param | services/api/client.ts:178 | A parameter lookup finds a value exactly when some parameter has that key, and then returns that parameter's value |
| Client.RegisteredRoutes | services/api/client.ts:170-230 | Each of the twelve templates the local switch lists reaches its own case, never an earlier one or the default |
| Client.RouteOfFeedbackSubmit | services/api/client.ts:213-223 | The feedback-submit template dispatches to the local submit case |
| Client.RouteOfFeedbackList | services/api/client.ts:224-230 | The feedback-list template dispatches to the local list case |
| Client.LocalCollections | services/api/client.ts:170-199 | In local mode each collection endpoint answers success with the fixture's field for it |
| Client.LocalDoctorById | services/api/client.ts:177-180 | In local mode a doctor-by-id call answers success with the first fixture doctor whose id equals the parsed id, or with no data |
| Client.LocalLogin | services/api/client.ts:200-211 | A local login succeeds exactly when email and password are both present, and then carries the mock `{token, user}` payload; otherwise it fails with `Invalid credentials` |
| Client.LocalEcho | services/api/client.ts:231-233 | Any endpoint without a local case answers success with the request body as data |
| Client.OutgoingHeaders | services/api/client.ts:111-127 | A remote request carries the verb, a JSON content type, a bearer header exactly when a token is truthy, a body exactly when one is present and the verb is POST, PUT or PATCH, and the 10000 ms timeout |
| Client.ReadsSendNoBody | services/api/client.ts:125-127 | GET and DELETE requests are sent without a body |
| Client.RemoteOutcomes | services/api/client.ts:129-149 | An ok response is success with the parsed data; an HTTP error yields the payload's `message` or `Request failed`; a rejected fetch yields the error's message or `Unknown error`; nothing is rethrown |
| Client.ApiClient.constructor | services/api/client.ts:47-50 | A new client takes the configured base URL and timeout, has no token, and has not loaded the fixture |
| Client.ApiClient.SetAuthToken | services/api/client.ts:55-57 | Setting the token replaces it and leaves the fixture memo alone |
| Client.ApiClient.ClearAuthToken | services/api/client.ts:62-64 | Clearing leaves no token and leaves the fixture memo alone |
| Client.ApiClient.BuildUrl | services/api/client.ts:69-80 | The loop over parameters computes `Url`: the substituted template in local mode, the base URL followed by it otherwise |
| Client.ApiClient.LoadUserData | services/api/client.ts:16-40 | The fixture is loaded once and memoised: the bundled file, or the mock fallback when it is missing |
| Client.ApiClient.HandleLocalRequest | services/api/client.ts:156-241 | A local request answers from the memoised fixture exactly as the dispatch table says |
| Client.ApiClient.Request | services/api/client.ts:95-150 | The answer is `Respond`; local mode sends nothing, remote mode sends exactly the outgoing request; the token is unchanged |
| Storage.UserDataIn | services/storage/secureStorage.ts:120-129 | Stored user data is null when missing or empty, the parse when it parses, and null when it does not |
| Storage.SavedTokenAuthenticates | services/storage/secureStorage.ts:91-100 | After saving a token it reads back, other keys are untouched, and the store is authenticated exactly when the token is non-empty |
| Storage.UserDataRoundTrip | services/storage/secureStorage.ts:112-129 | Saving user data and reading it back gives the same value when stringify and parse are inverse |
| Storage.SecureStorageService.constructor | services/storage/secureStorage.ts:171 | The singleton starts over the given entries |
| Storage.SecureStorageService.SetItem | services/storage/secureStorage.ts:26-39 | A write stores the pair, or on failure reports it and changes nothing |
| Storage.SecureStorageService.GetItem | services/storage/secureStorage.ts:44-55 | A read returns the stored value or null, and null on failure |
| Storage.SecureStorageService.RemoveItem | services/storage/secureStorage.ts:60-71 | A remove deletes the key, or on failure reports it and changes nothing |
| Storage.SecureStorageService.Clear | services/storage/secureStorage.ts:76-84 | The four removals are independent: every storage key whose own removal works is gone, every other entry stays, and the call rejects exactly when some removal fails |
| Storage.ClearedAll | services/storage/secureStorage.ts:76-84 | When no removal fails, clear takes exactly the four storage keys and resolves |
| Storage.SecureStorageService.SaveAuthToken | services/storage/secureStorage.ts:91-93 | Stores the token under the auth-token key |
| Storage.SecureStorageService.GetAuthToken | services/storage/secureStorage.ts:98-100 | Reads the auth-token key |
| Storage.SecureStorageService.RemoveAuthToken | services/storage/secureStorage.ts:105-107 | Deletes the auth-token key |
| Storage.SecureStorageService.SaveUserData | services/storage/secureStorage.ts:112-115 | Stores the stringified user under the user-data key |
| Storage.SecureStorageService.GetUserData | services/storage/secureStorage.ts:120-129 | Reads and parses the user-data key, and yields null for missing, empty, unparseable or unreadable data |
| Storage.SecureStorageService.RemoveUserData | services/storage/secureStorage.ts:134-136 | Deletes the user-data key |
| Storage.SecureStorageService.SaveRefreshToken | services/storage/secureStorage.ts:141-143 | Stores the refresh token |
| Storage.SecureStorageService.GetRefreshToken | services/storage/secureStorage.ts:148-150 | Reads the refresh token |
| Storage.SecureStorageService.IsAuthenticated | services/storage/secureStorage.ts:155-158 | True exactly when the read succeeds and a non-empty token is stored |
| Storage.SecureStorageService.Logout | services/storage/secureStorage.ts:163-167 | As written: the call always fails; it removes only the auth token, then calls a method the class does not define |
| Storage.SecureStorageService.LogoutCorrected | services/storage/secureStorage.ts:163-167 | Removes the auth token, the refresh token and the user data, or on failure changes nothing |
| Storage.LogoutCorrectedSignsOut | services/storage/secureStorage.ts:163-167 | After the corrected logout the store is not authenticated, has no user data and no refresh token |
| Storage.LogoutLeavesUserData | services/storage/secureStorage.ts:163-167 | After the logout as written the store is signed out but still holds the user data and the refresh token |
| Users.AuthOutcome | services/api/userService.ts:29-44 | A delivered answer is passed through as is; any other answer becomes `{success: false, message}` with the server's error or the fallback text |
| Users.SavedUser | services/api/userService.ts:31-36 | The user is persisted exactly when the answer carries a token and a user |
| Users.AuthAddsNoFlag | services/api/userService.ts:38 | A delivered answer without a `success` field is returned without one |
| Users.AuthFailureMessage | services/api/userService.ts:41-44 | A failed answer always reads `success: false`, with the server's error as the message when there is one |
| Users.AuthOutcomeCorrected | services/api/userService.ts:38 | The corrected answer adds `success: true` to a delivered object and is otherwise the answer as written |
| Users.CorrectedAuthPersistsToken | services/api/userService.ts:29-37 | With the token persisted as well, the store is authenticated after a successful login |
| Users.LoginKeepsStoredToken | services/api/userService.ts:29-37 | As written, login never writes the token to storage, so the store's authentication is unchanged by it |
| Users.UserService.constructor | services/api/userService.ts:19 | The service wraps the shared client and storage |
| Users.UserService.Authenticate | services/api/userService.ts:23-45 | POSTs the body; on a token sets it on the client and persists the user; the answer is `AuthOutcome`, or the storage failure is thrown |
| Users.UserService.Login | services/api/userService.ts:23-45 | Login is `Authenticate` on the login endpoint with the fallback `Login failed` |
| Users.UserService.Register | services/api/userService.ts:81-102 | Register is `Authenticate` on the register endpoint with the fallback `Registration failed` |
| Users.UserService.Logout | services/api/userService.ts:50-55 | As written: always throws, after the auth token alone is removed, and never reaches the client or the server |
| Users.UserService.LogoutCorrected | services/api/userService.ts:50-55 | Clears storage, then the client token, then POSTs logout; a storage failure stops before the other two |
| Users.UserService.GetUser | services/api/userService.ts:60-62 | GETs the user endpoint and returns its answer |
| Users.UserService.UpdateUser | services/api/userService.ts:67-76 | PUTs `{updates}`, and on delivered data persists it as the new user record |
| Users.UserService.IsAuthenticated | services/api/userService.ts:107-109 | Delegates to storage: true exactly when a non-empty token is readable |
| Appointments.ByIdTargets | services/api/appointmentService.ts:22-58 | The by-id, update and delete calls go to `/api/appointments/<id>` with GET, PUT (carrying the updates) and DELETE |
| Appointments.CreateTarget | services/api/appointmentService.ts:32-37 | Create POSTs its body to `/api/appointments/create` |
| Appointments.Upcoming | services/api/appointmentService.ts:63-76 | A failed fetch passes through; otherwise it keeps, in order, exactly the appointments dated now or later that are not completed |
| Appointments.Past | services/api/appointmentService.ts:81-94 | A failed fetch passes through; otherwise it keeps, in order, exactly the appointments dated before now or completed |
| Appointments.UpcomingPastPartition | services/api/appointmentService.ts:63-94 | When all dates parse, upcoming and past split the list: the lengths and multisets add up |
| Appointments.UnparsedDateInNeither | services/api/appointmentService.ts:69-87 | An unparseable date that is not completed falls in neither list |
| HealthRecords.CallTargets | services/api/healthRecordService.ts:22-27 | A by-id fetch is a GET of `/api/health-records/<id>` |
| HealthRecords.ByCategory | services/api/healthRecordService.ts:32-43 | Keeps, in order, exactly the records whose category equals the query ignoring case |
| HealthRecords.ByType | services/api/healthRecordService.ts:48-59 | Keeps, in order, exactly the records whose type contains the query ignoring case |
| HealthRecords.EmptyTypeKeepsAll | services/api/healthRecordService.ts:53 | An empty type query keeps every record |
| HealthRecords.Insert | services/api/healthRecordService.ts:68-70 | Insertion adds exactly one record to the multiset |
| HealthRecords.SortNewestFirst | services/api/healthRecordService.ts:68-70 | The sort is a permutation of its input |
| HealthRecords.InsertKeepsOrder | services/api/healthRecordService.ts:68-70 | Inserting into a newest-first list keeps it newest-first |
| HealthRecords.SortedNewestFirst | services/api/healthRecordService.ts:68-70 | The sorted list is newest-first: no later record is strictly newer than an earlier one |
| HealthRecords.Recent | services/api/healthRecordService.ts:64-75 | A failed fetch passes through; otherwise the result is the prefix of the sorted list of length min(limit, n), with limit 5 by default |
| HealthRecords.RecentNewestFirst | services/api/healthRecordService.ts:64-75 | The recent records are newest-first, and are all the records when the limit covers them |
| Medications.TakenBody | services/api/medicationService.ts:35 | The taken body holds exactly the date and time fields |
| Medications.CallTargets | services/api/medicationService.ts:22-38 | By-id is a GET of `/api/medications/<id>`; mark-taken POSTs the date and time to `/api/medications/<id>/taken` |
| Medications.Active | services/api/medicationService.ts:43-57 | Keeps, in order, exactly the medications with no end date, an empty one, or one at or after now |
| Medications.UnparsedEndDateInactive | services/api/medicationService.ts:49-51 | A present, non-empty, unparseable end date makes a medication inactive |
| Medications.NeedingRefill | services/api/medicationService.ts:62-71 | Keeps, in order, exactly the medications marked unavailable |
| Notifications.MarkAsReadTarget | services/api/notificationService.ts:22-28 | Mark-read PATCHes `{}` to `/api/notifications/<id>/read` |
| Notifications.MarkAllAsReadTarget | services/api/notificationService.ts:33-38 | Mark-all POSTs `{}` to `/api/notifications/read-all` |
| Notifications.Unread | services/api/notificationService.ts:43-52 | Keeps, in order, exactly the unread notifications |
| Notifications.UnreadCount | services/api/notificationService.ts:57-65 | On success the count is the number of unread notifications; on failure it is a failure carrying the fetch's error |
| Notifications.UnreadCountComplement | services/api/notificationService.ts:43-62 | The unread count plus the read count is the total |
| Doctors.CallTargets | services/api/doctorService.ts:22-27 | By-id is a GET of `/api/doctors/<id>` |
| Doctors.BySpecialty | services/api/doctorService.ts:32-43 | Keeps, in order, exactly the doctors whose specialty contains the query ignoring case |
| Doctors.ByName | services/api/doctorService.ts:48-59 | Keeps, in order, exactly the doctors whose name contains the query ignoring case |
| Doctors.EmptySearchKeepsAll | services/api/doctorService.ts:37-53 | An empty specialty or name query keeps every doctor |
| Pharmacies.CallTargets | services/api/pharmacyService.ts:22-27 | By-id is a GET of `/api/pharmacies/<id>` |
| Pharmacies.Open | services/api/pharmacyService.ts:32-41 | Keeps, in order, exactly the open pharmacies |
| Pharmacies.ByName | services/api/pharmacyService.ts:46-57 | Keeps, in order, exactly the pharmacies whose name contains the query ignoring case |
| Emergency.CallTarget | services/api/emergencyService.ts:15-17 | The list is a GET of `/api/emergency-contacts` without a body |
| Emergency.ByType | services/api/emergencyService.ts:22-33 | Keeps, in order, exactly the contacts whose type equals the query ignoring case |
| Emergency.ByTypeIgnoresQueryCase | services/api/emergencyService.ts:27 | Queries differing only in letter case select the same contacts |
| Feedback.DeviceInfoOf | services/api/feedbackService.ts:90-106 | The platform is ios or android when the user agent names one, and web otherwise; the version is the user agent; the model is the navigator platform or `Unknown` |
| Feedback.NewId | services/api/feedbackService.ts:116 | Every feedback id starts with `fb_` |
| Feedback.WithoutId | services/api/feedbackService.ts:205 | Deleting keeps, in order, exactly the entries with another id |
| Feedback.IndexOfFeedback | services/api/feedbackService.ts:178 | `find` returns the first entry with the id, and nothing when none has it |
| Feedback.FeedbackService.constructor | services/api/feedbackService.ts:10-14 | The service starts over the given entries and sync URL |
| Feedback.FeedbackService.Submit | services/api/feedbackService.ts:111-150 | A pending entry with device info is put first and the answer carries `{id}` of it; the sync is posted only when a URL is configured; a storage failure changes nothing and is reported |
| Feedback.FeedbackService.History | services/api/feedbackService.ts:155-170 | History returns all entries, newest first |
| Feedback.FeedbackService.FeedbackById | services/api/feedbackService.ts:175-197 | Success exactly when some entry has the id, with the first such entry; otherwise `Feedback not found` |
| Feedback.FeedbackService.Delete | services/api/feedbackService.ts:202-218 | Keeps exactly the entries with another id and reports success; a storage failure changes nothing |
| Feedback.FeedbackService.ClearAll | services/api/feedbackService.ts:223-239 | Empties the list and reports success; a storage failure changes nothing |
| Feedback.SubmittedIsFound | services/api/feedbackService.ts:125-127 | A just-submitted entry is found first by its id |
| Feedback.DeletedIsGone | services/api/feedbackService.ts:202-206 | After a delete the id is not found |
| Feedback.DeleteUndoesSubmit | services/api/feedbackService.ts:125-206 | Deleting a freshly submitted id restores the previous list |
| Feedback.DeleteMissingKeepsAll | services/api/feedbackService.ts:205 | Deleting an absent id keeps the list unchanged |
| Data.Reloaded | contexts/DataContext.tsx:76-82 | A collection takes the fetched list only when its fetch succeeded with data, and otherwise keeps its old value |
| Data.ReplaceById | contexts/DataContext.tsx:161-165 | Replacing by id keeps the length and position and swaps exactly the elements with that id |
| Data.ReplaceKeepingId | contexts/DataContext.tsx:161-165 | A replacement that keeps the id is found afterwards, and replacing twice is the same as once |
| Data.ReplaceDroppingId | contexts/DataContext.tsx:161-165 | A replacement without the id leaves no element with that id, at the same length |
| Data.CreateRequest | contexts/DataContext.tsx:193-199 | The create request carries exactly the doctor id, date, time, type and reason of the appointment |
| Data.CreateRequestForwardsOnly | contexts/DataContext.tsx:193-199 | Appointments that agree on those five fields yield the same request |
| Data.DataProvider.constructor | contexts/DataContext.tsx:44-53 | The state starts signed out, with no user and empty collections |
| Data.DataProvider.LoadAllData | contexts/DataContext.tsx:56-86 | Each of the seven collections is `Reloaded` from its own answer; nothing else changes |
| Data.DataProvider.Login | contexts/DataContext.tsx:89-108 | Succeeds exactly when the answer returned with `success` and a user; then sets the user, authenticates and reloads; otherwise the state is kept |
| Data.DataProvider.Logout | contexts/DataContext.tsx:111-130 | Resets user, authentication and collections only when the service returns; a throw leaves them as they were |
| Data.DataProvider.UpdateUser | contexts/DataContext.tsx:133-148 | Calls the service exactly when a user is present, and adopts delivered data as the user |
| Data.DataProvider.DoctorById | contexts/DataContext.tsx:151-153 | Finds a doctor exactly when one with the id is held, and returns a held doctor with that id |
| Data.DataProvider.MarkNotificationAsRead | contexts/DataContext.tsx:156-170 | Sends the mark-read call and replaces the notification by id only on delivered data |
| Data.DataProvider.MarkMedicationAsTaken | contexts/DataContext.tsx:173-187 | Sends the mark-taken call and replaces the medication by id only on delivered data |
| Data.DataProvider.AddAppointment | contexts/DataContext.tsx:190-209 | Sends the create call with `CreateRequest`, and appends the delivered appointment |
| Data.DataProvider.UpdateAppointment | contexts/DataContext.tsx:212-229 | Sends the update call and replaces the appointment by id on delivered data |
| Data.DataProvider.CheckAuth | contexts/DataContext.tsx:232-253 | A delivered user signs in and reloads; any other answer or a throw keeps the state; loading always ends |
| Data.LocalLoginRejected | contexts/DataContext.tsx:94 | As written: in local mode, login with any credentials returns false |
| Data.LocalLoginAcceptedCorrected | contexts/DataContext.tsx:94 | With the success flag added, local login is accepted exactly when the fixture user is truthy |
| Data.LocalMarkReadDropsNotification | services/api/client.ts:231-233 | As written: in local mode marking a notification read replaces it with the empty echo body |
| Data.LocalMarkReadCorrected | services/api/client.ts:231-233 | A corrected local mark-read succeeds exactly when the fixture holds the id |
| Data.LocalMarkReadCorrectedKeeps | contexts/DataContext.tsx:156-166 | With the corrected answer, the notification is kept and reads as read |
| Report.Validate | app/report/index.tsx:50-61 | The first failing check is reported in order (subject, description, email); validation passes exactly when both trim non-empty and the email is empty or contains `@` |
| Report.Payload | app/report/index.tsx:66-74 | Subject and description are trimmed, the rating is sent only when positive, and the email is omitted exactly when it trims to empty |
| Report.ValidPayload | app/report/index.tsx:50-74 | A payload built from validated input has a non-empty subject and description, and any email contains `@` |
| Report.ReportForm.constructor | app/report/index.tsx:25-30 | The form starts at category `improvement` with empty fields, rating 0, not submitting |
| Report.ReportForm.BeginSubmit | app/report/index.tsx:48-74 | An invalid form raises the validation alert and sends nothing; a valid one starts submitting with `Payload` |
| Report.ReportForm.FinishSubmit | app/report/index.tsx:76-101 | Success thanks the user and resets the text fields; a failure or a throw alerts and keeps them; submitting always ends |
| AccountSetup.NextStep | app/account-setup/index.tsx:42-46 | Next advances one step and stays on the last |
| AccountSetup.BackStep | app/account-setup/index.tsx:48-54 | Back goes one step back and stays on the first |
| AccountSetup.BackUndoesNext | app/account-setup/index.tsx:42-54 | Back undoes Next, and Next undoes Back, away from the ends |
| AccountSetup.NextReachesLast | app/account-setup/index.tsx:42-46 | Pressing Next k times reaches min(step + k, 3) |
| AccountSetup.FormsShown | app/account-setup/index.tsx:404-406 | Exactly the form of the current step is shown |
| AccountSetup.PrimaryAction | app/account-setup/index.tsx:410-430 | The primary button creates the account exactly on the last step |
| AccountSetup.Wizard.constructor | app/account-setup/index.tsx:11 | The wizard starts on step 1 |
| AccountSetup.Wizard.HandleNext | app/account-setup/index.tsx:42-46 | The step becomes `NextStep` of the old one |
| AccountSetup.Wizard.HandleBack | app/account-setup/index.tsx:48-54 | The step becomes `BackStep` of the old one, and the screen is left exactly from step 1 |

## Left out

- Network, SecureStore, `localStorage` and `Platform.OS` are not modelled as
  such. A request's fetch outcome is a parameter. A failed `response.json()`
  is folded into the thrown-error outcome. The native secure store and the
  web `localStorage` fallback are one map of entries.
- Each storage or fetch failure is a parameter of the call it affects. A
  call fails at most once; repeated failures in one logical operation are
  not modelled. `clear` is the exception: it takes one fault per storage
  key, because its four removals run independently.
- Storage.SecureStorageService.Clear: when several removals fail, the model
  reports the first failure in key order; which rejection `Promise.all`
  reports depends on the timing of the backend calls, which is not modelled.
- The 300 ms artificial delay of local mode and all `console` logging have
  no observable effect on state and are not modelled.
- `Date.now`, `Math.random`, `new Date().toISOString()` and date parsing
  are parameters. An unparseable date is `NaN`, and every comparison with it
  is false.
- `Promise.all` concurrency in the reload and the interleaving of concurrent
  screen operations are not modelled. Each operation is one atomic step over
  the answers it awaits.
- Numbers are integers; fractional ids, fractional limits and `NaN` limits
  are not modelled.
- Text.ParseInt: reads base 10 only. Without a radix, `parseInt` reads a
  `0x`/`0X` prefix as hexadecimal. Here such a text reads as 0, the digit
  before the `x`. The services only send decimal ids rendered by
  `IntToString`, so only a hand-built request reaches that case.
- `toLowerCase` is ASCII-only; Unicode case mapping is not modelled.
- `String.replace` special `$` patterns in substituted values are not
  modelled; ids are decimal numbers, which contain none.
- `JSON.stringify` and `JSON.parse` are parameters of the storage service.
- HealthRecords.SortNewestFirst: the engine's sort with a comparator that
  may compare `NaN` is implementation-defined. It is modelled as a stable
  insertion sort; the model proves permutation and order but not stability.
- FeedbackService: the in-memory cache and `localStorage` are collapsed into
  one list. On the web a throwing `setItem` still updates the cache; here a
  failed save leaves the list unchanged. The fallback for unparseable stored
  JSON is not modelled.
- `syncToMongoDB` swallows its own errors and has no effect on the answer.
  It is returned as the request it would post, without a result.
- `FeedbackSubmission` is imported from `services/api/types.ts` but not
  declared there. Its fields are taken from `feedbackService.ts` and the
  report screen.
- DataContext: collections are sequences of JSON values; a non-array
  payload is not modelled. `isLoading` is modelled only as its final value
  after each operation.
- Report screen: the alert's OK button (`router.back`), category and rating
  selection, and the layout are not modelled.
- Account setup: `handleSignUp`, the form fields and all other screens are
  not modelled.
- `API_CONFIG.VERSION` and `ENABLE_LOGGING` have no effect on the modelled
  behaviour.
- Users.UserService.Logout: the storage-then-client-then-server order is
  stated only on Users.UserService.LogoutCorrected, because the method as
  written throws before reaching the client.

## Findings

| source | as written | input that shows it | evidently intended | confidence | as-written member | corrected member |
|---|---|---|---|---|---|---|
| services/storage/secureStorage.ts:163-167 | `logout` calls `this.removeRefreshToken()`, which the class does not define, so the call throws after removing only the auth token | any call of `logout()` | remove the auth token, the refresh token and the user data, then resolve | not executed | Storage.SecureStorageService.Logout | Storage.SecureStorageService.LogoutCorrected |
| contexts/DataContext.tsx:94 | login requires `response.success`, but a delivered login answer is passed on without that flag, and the local login answer has none | local mode, credentials `{email: "a", password: "b"}` | a delivered login with a user signs in | not executed | Data.LocalLoginRejected | Data.LocalLoginAcceptedCorrected |
| services/api/client.ts:231-233 | the local mark-read request echoes its empty body, and DataContext stores that body in place of the notification | local mode, marking a fixture notification read | the notification stays in the list, marked read | not executed | Data.LocalMarkReadDropsNotification | Data.LocalMarkReadCorrectedKeeps |
| services/api/userService.ts:29-37 | login sets the token on the client and persists the user, but never stores the token, so `isAuthenticated()` stays false | a successful remote login on a fresh store | the issued token is persisted, so the session survives a restart | not executed | Users.LoginKeepsStoredToken | Users.CorrectedAuthPersistsToken |
