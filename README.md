# Feedback system: a verified model

The feedback system lets a manager write structured feedback (strengths, areas to improve,
an overall sentiment) for the employees on their team. Employees read and acknowledge it,
and each role has a dashboard of counts and recent records. The backend is a FastAPI
service over a SQLAlchemy database. The browser client is a React app that keeps the
session in localStorage and can also run against a built-in demo data set.

This project models the logic that decides what the system does, and proves properties of
that model:

- `domain.dfy` (module `Domain`): the records exchanged by the two halves. These are users,
  feedback, the create and update requests, the dashboards and the token. Timestamps are
  integers (seconds since the Unix epoch); every clock reading is a parameter.
- `seqs.dfy` (module `Seqs`): `FirstIndex` and `Filter`, the shapes of the `.first()`
  queries, the `.all()` queries and the list comprehensions.
- `recency.dfy` (module `Recency`): the newest-first order. One newest-first sort serves both the
  backend's `order_by(created_at.desc())` and the client's load-time sort.
  `MostRecent(s, 5)` is the dashboards' "last five" list.
- `decimal.dfy` (module `Decimal`): decimal spelling of naturals and `Number(text)` for
  digit strings, as used by the demo token and the feedback form's member select.
- `crud.dfy` (module `Crud`): the data operations of `backend/crud.py`.
  - The queries and the two dashboard aggregations are functions.
  - The sentiment counting loop is a method proved equal to the count function.
  - The database is the class `Store`. Its methods append, patch and acknowledge rows in
    place and keep primary keys unique.
- `endpoints.dfy` (module `Endpoints`): the handlers of `backend/main.py`.
  - The guard checks of each handler, in their order, are a function returning `Allow` or
    `Deny(status, detail)`.
  - The handlers that change the database compose that verdict with the `Store` method it
    protects.
- `session.dfy` (module `Api`): the client session of `frontend/src/services/api.ts`.
  - localStorage is a map field of the class `Browser`.
  - `login`, `register` and `logout`, and the two interceptors, are its methods.
  - How a network request settles is a parameter.
- `route_guard.dfy` (module `RouteGuard`): the redirect/render decision of `ProtectedRoute`.
- `demo_data.dfy` (module `DemoData`): the fixtures of `demoData.ts`, and the demo login and
  logout on the same `Browser`. It proves that the precomputed dashboards equal what the
  backend functions compute from the fixture lists.
- `feedback_list.dfy` (module `FeedbackListPage`): the feedback list page.
  - The page state is a class.
  - Loading sorts the fetched list newest first.
  - The acknowledge step rewrites only the items with the matching id.
  - The visibility rules are predicates.
- `give_feedback.dfy` (module `GiveFeedbackForm`): the give-feedback form. It covers the
  per-field rules and their exact messages, the payload sent on submit, the submit-failure
  text, and the sentiment descriptions.

Behaviour of the code worth knowing:

- Acknowledging a record also moves its `updated_at`. The column is declared with
  `onupdate=datetime.utcnow` (backend/models.py:45), so every UPDATE of the row that does
  not set it refreshes it. `Crud.Acknowledged` therefore changes `acknowledged`,
  `acknowledgedAt` and `updatedAt`, and no other field.
- A new feedback row takes `created_at` and `updated_at` from two separate clock readings
  (backend/models.py:44-45), so the two stamps of a record that was never edited can differ.
  `Crud.Store.CreateFeedback` takes both readings as parameters.
- Rows can be acknowledged without an acknowledgement time: the seed script writes such rows
  (backend/create_demo_data.py:111), and so does the second demo feedback record. The
  `Store` does not require the flag and the time to agree. Its methods keep
  `AcknowledgementsStamped` (flag set exactly when a time is recorded) once it holds, and a
  fresh `Store` starts with it.
- Every role test in backend/main.py compares the role of a user loaded from the database,
  a member of the plain enumeration `UserRole` (backend/models.py:9-11, 25), with the string
  `"manager"`. Such a comparison is never equal. The guards of the model follow the intended
  role test; the comparison as written is modelled beside them (see "## Findings").

## Model

| member | source | states |
|---|---|---|
| `Domain.ParseSentiment` | backend/schemas.py:10-13 | a text is read as a sentiment only when it is that sentiment's wire name |
| `Domain.SentimentNameRoundTrip` | backend/schemas.py:10-13 | reading back a sentiment's wire name gives the same sentiment |
| `Domain.NormalizeEmail` | backend/schemas.py:16 | same length; the local part and the '@' are kept as given, and every character after the last '@' is lower-cased |
| `Domain.NormalizeEmailIdempotent` | backend/schemas.py:16 | normalising an already normalised address changes nothing |
| `Domain.DomainCaseIgnored` | backend/schemas.py:16 | any two addresses with the same local part and '@' that differ only in the case of their domain normalise alike |
| `Domain.LocalCaseKept` | backend/schemas.py:16 | addresses that differ anywhere up to the last '@' of one of them normalise differently, so the local part's case is kept |
| `Domain.DomainCaseExample` | backend/schemas.py:16 | "a@B" and "a@b" normalise to "a@b"; "A@b" normalises to a different address |
| `Recency.SortNewestFirst` | frontend/src/pages/FeedbackList.tsx:17 | the result has the same elements with the same multiplicities, and is in non-increasing `created_at` order |
| `Recency.MostRecent` | backend/crud.py:86-89 | at most `n` records (exactly `min(n, total)`), all taken from the input, newest first |
| `Recency.MostRecentHoldsNewest` | backend/crud.py:86-89 | a record left out of the "most recent" list is no newer than any record in it |
| `Decimal.DecimalString` | frontend/src/services/demoData.ts:86 | the spelling is non-empty, all decimal digits, and has no leading zero |
| `Decimal.ParseDecimal` | frontend/src/pages/GiveFeedback.tsx:45 | a number is read exactly when the text is a non-empty string of digits |
| `Decimal.DecimalRoundTrip` | frontend/src/pages/GiveFeedback.tsx:45 | reading back the decimal spelling of `n` gives `n` |
| `Crud.FindUser` | backend/crud.py:9-10 | a user with the id, or none exactly when no user has it |
| `Crud.FindUserByEmail` | backend/crud.py:12-13 | a user with the email, or none exactly when no user has it |
| `Crud.FindFeedback` | backend/crud.py:48-49 | a feedback record with the id, or none exactly when no record has it |
| `Crud.UsersPage` | backend/crud.py:15-16 | at most `limit` users, exactly the ones at positions `skip`, `skip+1`, ... of the user list |
| `Crud.TeamMembers` | backend/crud.py:32-33 | exactly the users whose `manager_id` is the manager's id |
| `Crud.FeedbackByManager` | backend/crud.py:51-52 | exactly the records written by the manager |
| `Crud.FeedbackByEmployee` | backend/crud.py:54-55 | exactly the records received by the employee |
| `Crud.Unacknowledged` | backend/crud.py:109 | exactly the records not yet acknowledged, never more than the input |
| `Crud.SentimentCountsSumToLength` | backend/crud.py:92-94 | the per-sentiment counts of a list of records add up to its length |
| `Crud.Tally` | backend/crud.py:92-94 | the three entries of the summary add up to the number of records counted |
| `Crud.SummarizeSentiments` | backend/crud.py:118-120 | the counting loop yields, per sentiment, the number of records carrying it |
| `Crud.ManagerDashboardOf` | backend/crud.py:76-101 | the sentiment counts add up to the total; the recent list holds at most 5 of the manager's records, no more than the total, newest first |
| `Crud.EmployeeDashboardOf` | backend/crud.py:103-127 | unacknowledged is at most the total; the sentiment counts add up to the total; the recent list holds at most 5 of the employee's records, no more than the total, newest first |
| `Crud.ManagerRecentAreNewest` | backend/crud.py:86-89 | no authored record left out of the manager's recent list is newer than one in it |
| `Crud.EmployeeRecentAreNewest` | backend/crud.py:112-115 | no received record left out of the employee's recent list is newer than one in it |
| `Crud.Patched` | backend/crud.py:57-65 | each supplied field is overwritten; unsupplied fields, ids, creation time and acknowledgement are kept; `updated_at` becomes the update time |
| `Crud.EmptyUpdateTouchesOnlyTimestamp` | backend/crud.py:60-62 | an update that supplies nothing still sets `updated_at` and changes nothing else |
| `Crud.PatchedIdempotent` | backend/crud.py:60-62 | applying the same update twice at the same instant equals applying it once |
| `Crud.Acknowledged` | backend/crud.py:67-74 | sets the flag and the acknowledgement time (and, through the column's `onupdate`, `updated_at`); every other field is kept |
| `Crud.AcknowledgeTwiceOverwrites` | backend/crud.py:69-71 | a second acknowledgement keeps the flag and overwrites the time with the later one |
| `Crud.Store.constructor` | backend/models.py:38 | an empty database whose key invariant holds, with every acknowledged row stamped |
| `Crud.Store.CreateUser` | backend/crud.py:18-30 | appends one user with a fresh id, the request's fields and the time; the user id counter moves by one; feedback is untouched |
| `Crud.Store.CreateFeedback` | backend/crud.py:35-46 | appends one unacknowledged record with a fresh id, the caller as manager, the four input fields verbatim, and the two clock readings as `created_at` and `updated_at`; the feedback id counter moves by one; users are untouched |
| `Crud.Store.UpdateFeedback` | backend/crud.py:57-65 | unknown id: returns none and changes nothing; otherwise only the record with that id is replaced by its patched version, which is returned |
| `Crud.Store.AcknowledgeFeedback` | backend/crud.py:67-74 | unknown id: returns none and changes nothing; otherwise only the record with that id is replaced by its acknowledged version, which is returned |
| `Crud.Store.GetManagerDashboard` | backend/crud.py:76-101 | the dashboard read from the store equals the manager dashboard function of its rows |
| `Crud.Store.GetEmployeeDashboard` | backend/crud.py:103-127 | the dashboard read from the store equals the employee dashboard function of its rows |
| `Endpoints.LoginForAccessToken` | backend/main.py:34-50 | failed authentication gives 401 "Incorrect username or password" and no token; success gives the signed token with type "bearer" |
| `Endpoints.CreateUserGuard` | backend/main.py:58-60 | denied with 400 "Email already registered" exactly when a user has the normalised form of the requested email |
| `Endpoints.CreateUser` | backend/main.py:56-61 | a registered email gives 400 "Email already registered", exactly the guard's verdict, and adds no user; otherwise one user is appended with the normalised email and the request's name, role and manager |
| `Endpoints.RegisteredAddressRefused` | backend/main.py:56-60 | once an address is registered, a second registration of it is refused with 400 whatever the case of its domain |
| `Endpoints.ManagerOnly` | backend/main.py:70-71 | allows exactly managers; others get 403 with the handler's detail |
| `Endpoints.ReadUsers` | backend/main.py:63-73 | a non-manager gets 403 "Not authorized"; a manager gets exactly `min(limit, users left after skip)` users, the ones at positions `skip`, `skip+1`, ... |
| `Endpoints.MyTeam` | backend/main.py:75-82 | a non-manager gets 403 "Not authorized"; a manager gets exactly their team |
| `Endpoints.CreateFeedbackGuard` | backend/main.py:90-96 | a non-manager gets 403 before any lookup; then a missing employee or one outside the caller's team gets 403 "Employee not in your team" |
| `Endpoints.CreateFeedback` | backend/main.py:84-98 | refused with no change exactly when the guard denies, with the guard's status and detail; otherwise one record by the caller for that employee is appended, unacknowledged, stamped with the two clock readings |
| `Endpoints.ReadFeedback` | backend/main.py:100-108 | a manager gets exactly the feedback they wrote; anyone else exactly the feedback they received |
| `Endpoints.UpdateFeedbackGuard` | backend/main.py:117-122 | an unknown id gets 404 first; then anyone but the authoring manager gets 403 |
| `Endpoints.UpdateFeedback` | backend/main.py:110-124 | refused with no change exactly when the guard denies, with the guard's status and detail; otherwise only the record with that id is patched |
| `Endpoints.AcknowledgeGuard` | backend/main.py:132-137 | an unknown id gets 404 first; then anyone but the recipient gets 403, with no role check |
| `Endpoints.AcknowledgeFeedback` | backend/main.py:126-139 | refused with no change exactly when the guard denies, with the guard's status and detail; otherwise only the record with that id is acknowledged |
| `Endpoints.GetManagerDashboard` | backend/main.py:141-149 | a non-manager gets 403 "Manager access required"; a manager gets their own dashboard |
| `Endpoints.GetEmployeeDashboard` | backend/main.py:151-156 | any caller gets the dashboard of the feedback they received |
| `Endpoints.ManagerRecipientCannotListReceived` | backend/main.py:100-108 | for any manager and any record they received from someone else, the record counts on their employee dashboard but is not in their feedback list |
| `Endpoints.ManagerRecipientExample` | backend/main.py:90-96 | a manager whose own manager is another manager can be given feedback: the create checks allow it |
| `Endpoints.StoredRole` | backend/models.py:9-11 | a stored role is a member of the enumeration `UserRole`, never a string |
| `Endpoints.StoredRoleNeverEqualsString` | backend/main.py:70 | the role of a stored user is never equal to the string "manager" |
| `Endpoints.ManagerOnlyAsWritten` | backend/main.py:70-71 | as written: allows exactly when the role value is the string "manager", and otherwise gives 403 with the handler's detail |
| `Endpoints.CreateFeedbackGuardAsWritten` | backend/main.py:90-96 | as written: a role value unequal to "manager" gets 403 "Only managers can create feedback"; otherwise the team check decides |
| `Endpoints.ReadFeedbackAsWritten` | backend/main.py:105-108 | as written: the authored records when the role value equals "manager", the received records otherwise |
| `Endpoints.UpdateFeedbackGuardAsWritten` | backend/main.py:117-122 | as written: unknown id gets 404; a known record is allowed exactly when the role value equals "manager" and the caller wrote it |
| `Endpoints.AsWrittenAgreesOnStringRoles` | backend/main.py:70-122 | with the role as a string, the four checks as written equal the intended ones |
| `Endpoints.AsWrittenRefusesStoredManagers` | backend/main.py:70-122 | with a stored role, the manager-only checks and the create check always refuse, the list is always the received records, and no known record can be updated |
| `Endpoints.SeededManagerRefusedAsWritten` | backend/create_demo_data.py:26-31 | for the seeded manager and a record they wrote, the intended checks allow listing, creating and updating while the checks as written refuse |
| `Api.CurrentUserIn` | frontend/src/services/api.ts:71-74 | the stored user, and none exactly when no user entry is stored |
| `Api.AuthorizationHeader` | frontend/src/services/api.ts:14-20 | "Bearer " + token exactly when a non-empty token is stored |
| `Api.Cleared` | frontend/src/services/api.ts:66-69 | both session keys are gone and every other key keeps its value |
| `Api.ClearedIdempotent` | frontend/src/services/api.ts:66-69 | removing the session keys twice is the same as once |
| `Api.ClearedHasNoSession` | frontend/src/services/api.ts:66-78 | after removal the client is not authenticated, has no user and sends no bearer header |
| `Api.AfterError` | frontend/src/services/api.ts:25-31 | a 401 clears the session; any other error leaves storage as it was |
| `Api.Browser.IsAuthenticated` | frontend/src/services/api.ts:76-78 | true exactly when a non-empty token is stored |
| `Api.Browser.GetCurrentUser` | frontend/src/services/api.ts:71-74 | none exactly when no user entry is stored, otherwise the stored user |
| `Api.Browser.OnResponseError` | frontend/src/services/api.ts:23-33 | a 401 removes both session keys and moves to `/login`; other errors change nothing |
| `Api.Browser.Request` | frontend/src/services/api.ts:14-33 | the request carries the header derived from storage; a success changes nothing; a failure passes through the error rule and is still rejected |
| `Api.Browser.Login` | frontend/src/services/api.ts:36-53 | the token is stored before `/users/me` is sent (which therefore carries it); full success stores token and user and stays on the page; a 401 from either request clears the session and moves to `/login`; a non-401 failure of `/users/me` keeps the token and stays on the page |
| `Api.Browser.Register` | frontend/src/services/api.ts:55-64 | returns the outcome; a 401 clears the session and moves to `/login`; any other outcome changes neither storage nor location |
| `Api.Browser.Logout` | frontend/src/services/api.ts:66-69 | removes both session keys and nothing else |
| `Api.LoginEstablishesSession` | frontend/src/services/api.ts:41-52 | after full success the client is authenticated as the returned user and sends that token |
| `Api.LoginHalfwayKeepsToken` | frontend/src/services/api.ts:46-49 | if `/users/me` fails with a non-401 error the token stays stored and the user entry is as before |
| `RouteGuard.Decide` | frontend/src/components/ProtectedRoute.tsx:10-23 | no token: `/login`; required role not matched (or no stored user): `/dashboard`; otherwise render; authentication is checked first |
| `RouteGuard.ProtectedRoute` | frontend/src/components/ProtectedRoute.tsx:10-23 | no non-empty token stored: `/login`; renders exactly when a token is stored and the route needs no role or the stored user has it; `/dashboard` otherwise |
| `RouteGuard.ClearedSessionRedirectsToLogin` | frontend/src/components/ProtectedRoute.tsx:14-16 | after logout or a 401 every protected route redirects to `/login` |
| `RouteGuard.TokenAloneRendersOpenRoutes` | frontend/src/components/ProtectedRoute.tsx:18-22 | a token with no stored user renders routes without a required role and redirects role-restricted ones |
| `RouteGuard.LoggedInUserReachesOwnRole` | frontend/src/components/ProtectedRoute.tsx:18-22 | after login, routes of the user's role render and routes of the other role redirect to `/dashboard` |
| `DemoData.DemoAuthenticate` | frontend/src/services/demoData.ts:80-83 | succeeds exactly when a fixture user has the email and the password is "password123", returning that user |
| `DemoData.DemoToken` | frontend/src/services/demoData.ts:86 | the token starts with "demo-token-" + role + "-" |
| `DemoData.DemoLogin` | frontend/src/services/demoData.ts:76-95 | bad credentials throw "Invalid credentials" with nothing stored; good ones store the token and the user and return them with type "bearer" |
| `DemoData.DemoLogout` | frontend/src/services/demoData.ts:97-100 | removes both session keys and nothing else |
| `DemoData.DemoManagerLogin` | frontend/src/services/demoData.ts:80-88 | the demo manager signs in with "password123", not with another password, and gets a "demo-token-manager-" token |
| `DemoData.UnknownEmailRejected` | frontend/src/services/demoData.ts:80-82 | an email no fixture user has never signs in |
| `DemoData.DemoFeedbackNewestFirst` | frontend/src/services/demoData.ts:23-50 | the fixture feedback is in non-increasing `created_at` order |
| `DemoData.DemoDashboardMatchesFixtures` | frontend/src/services/demoData.ts:52-61 | the manager dashboard fixture equals the backend's manager dashboard of the fixture lists for manager 1 |
| `DemoData.DemoEmployeeDashboardMatchesFixtures` | frontend/src/services/demoData.ts:63-72 | the employee dashboard fixture equals the backend's employee dashboard of the fixture feedback for employee 2 |
| `DemoData.DemoUnacknowledged` | frontend/src/services/demoData.ts:65 | exactly one fixture record is unacknowledged |
| `DemoData.DemoSummaryMatches` | frontend/src/services/demoData.ts:56-60 | the fixture feedback counts 2 positive, 0 neutral, 0 negative |
| `DemoData.DemoRecentMatches` | frontend/src/services/demoData.ts:55 | the five most recent fixture records are the whole fixture list, in its order |
| `FeedbackListPage.MarkAcknowledged` | frontend/src/pages/FeedbackList.tsx:31-33 | same length; items with the id become acknowledged with the given time and are otherwise unchanged; all other items are unchanged |
| `FeedbackListPage.MarkAcknowledgedKeepsOrder` | frontend/src/pages/FeedbackList.tsx:31-33 | the ids read in the same order; an id absent from the list changes nothing |
| `FeedbackListPage.LocalAcknowledgeMatchesServer` | frontend/src/pages/FeedbackList.tsx:32 | given the same acknowledgement instant on both sides, the local copy agrees with the server's acknowledged record in every field but `updated_at` |
| `FeedbackListPage.CanAcknowledge` | frontend/src/pages/FeedbackList.tsx:180 | the button shows exactly for a stored user whose role text is "employee" and an unacknowledged item |
| `FeedbackListPage.ShowsEditLink` | frontend/src/pages/FeedbackList.tsx:145 | the edit link shows exactly for a stored user whose role text is "manager" |
| `FeedbackListPage.EditShowsUpdatedOn` | frontend/src/pages/FeedbackList.tsx:133 | an edited record shows "Updated on" exactly when the edit time differs from its creation time |
| `FeedbackListPage.ControlsAreRoleExclusive` | frontend/src/pages/FeedbackList.tsx:145-180 | the acknowledge button and the edit link never show together, and neither shows without a stored user |
| `FeedbackListPage.AcknowledgedItemsHideButton` | frontend/src/pages/FeedbackList.tsx:180 | after a local acknowledge no matching item offers the button, and the "Updated on" note is unchanged |
| `FeedbackListPage.ServerAcknowledgeShowsUpdatedOn` | frontend/src/pages/FeedbackList.tsx:133 | a record whose two stamps are equal shows no "Updated on"; its server-acknowledged version at a later instant shows it |
| `FeedbackListPage.Page.constructor` | frontend/src/pages/FeedbackList.tsx:9-10 | an empty list, still loading |
| `FeedbackListPage.Page.Load` | frontend/src/pages/FeedbackList.tsx:13-26 | a fetched list is shown as a newest-first permutation of itself; a failed fetch keeps the list; loading ends either way |
| `FeedbackListPage.Page.HandleAcknowledge` | frontend/src/pages/FeedbackList.tsx:28-38 | success rewrites the matching items; failure leaves the list unchanged; the length never changes |
| `GiveFeedbackForm.TextFieldError` | frontend/src/pages/GiveFeedback.tsx:130-133 | empty gives the field's required message; 1 to 9 characters gives the at-least-10 message; the field passes exactly at 10 characters or more |
| `GiveFeedbackForm.Validate` | frontend/src/pages/GiveFeedback.tsx:105-183 | an empty select gives "Please select a team member"; the text areas follow their rules; a missing sentiment gives "Please select an overall sentiment" |
| `GiveFeedbackForm.ToNumber` | frontend/src/pages/GiveFeedback.tsx:45 | a digit string becomes its value; other text is NaN |
| `GiveFeedbackForm.Submit` | frontend/src/pages/GiveFeedback.tsx:41-49 | a payload exists exactly when all four fields pass; it carries the numeric employee id and the other three fields verbatim |
| `GiveFeedbackForm.SelectedMemberIdRoundTrip` | frontend/src/pages/GiveFeedback.tsx:111 | choosing a member puts their id in the select, and the submitted payload carries exactly that id |
| `GiveFeedbackForm.SubmitErrorMessage` | frontend/src/pages/GiveFeedback.tsx:53 | the server's detail when non-empty, otherwise "Failed to submit feedback" |
| `GiveFeedbackForm.SentimentDescription` | frontend/src/pages/GiveFeedback.tsx:59-70 | each sentiment's wire name maps to its fixed sentence; any other text maps to "" |
| `GiveFeedbackForm.DescriptionsDistinct` | frontend/src/pages/GiveFeedback.tsx:59-70 | every sentiment option has a non-empty description, and no two share one |

## Findings

| source | as written | input that shows it | evidently intended | confidence | as-written member | corrected member |
|---|---|---|---|---|---|---|
| backend/main.py:70 | `current_user.role != "manager"` compares a `UserRole` member with a string, so it is always true; the same test guards lines 80 and 146 | the seeded manager (backend/create_demo_data.py:30) calling GET /users/ gets 403 "Not authorized" | managers pass, others get 403 | high, not executed; assumes the auth module returns the user row as loaded | `Endpoints.ManagerOnlyAsWritten` | `Endpoints.ManagerOnly` |
| backend/main.py:90 | the same comparison refuses every caller of POST /feedback/ with 403 | the seeded manager creating feedback for Alice, a member of their team | a manager may write feedback for their own team | high, not executed; assumes the auth module returns the user row as loaded | `Endpoints.CreateFeedbackGuardAsWritten` | `Endpoints.CreateFeedbackGuard` |
| backend/main.py:105 | `current_user.role == "manager"` is always false, so GET /feedback/ always lists received feedback | the seeded manager, who receives none, gets an empty list instead of the feedback they wrote | a manager sees the feedback they wrote | high, not executed; assumes the auth module returns the user row as loaded | `Endpoints.ReadFeedbackAsWritten` | `Endpoints.ReadFeedback` |
| backend/main.py:121 | the same comparison refuses every update of an existing record with 403 | the seeded manager updating a record they wrote | the authoring manager may update it | high, not executed; assumes the auth module returns the user row as loaded | `Endpoints.UpdateFeedbackGuardAsWritten` | `Endpoints.UpdateFeedbackGuard` |

`Endpoints.SeededManagerRefusedAsWritten` exhibits each row on the seeded manager;
`Endpoints.AsWrittenRefusesStoredManagers` states it for every stored caller, and
`Endpoints.AsWrittenAgreesOnStringRoles` shows that the corrected checks are the checks as
written with the role read as text. The endpoints of the model use the corrected checks.

## Left out

- Password hashing, token signing and decoding, and `get_current_user` belong to the backend's `auth` module, which is not part of this model. `authenticate_user` is a parameter (the user it found, if any), the signed token text is a parameter, and each handler receives its caller as a given user.
- `GET /users/me` (backend/main.py:52-54) returns the caller unchanged. It appears only as the second request of the client login, whose outcome is a parameter.
- The database session, `commit`/`refresh` and ORM relationships are not modelled. The `manager` and `employee` objects nested in a serialized feedback record are left out. Database integrity (the unique email index, foreign keys) is not modelled; only the primary keys are.
- Rows with the same `created_at` come back from `order_by(created_at.desc())` in an order the database chooses. The model fixes one order, the one its insertion sort produces; no contract depends on which order that is.
- `Crud.UsersPage`: takes `skip` and `limit` as naturals. Negative query values, which SQL treats differently, are not modelled.
- `Endpoints.CreateUser`: the request body is taken after schema validation. `Domain.NormalizeEmail` models only the ASCII lower-casing of the domain that `EmailStr` applies. Its IDNA and Unicode normalisation, and the 422 response to an address it rejects, are not modelled.
- An update request that sends an explicit `null` is not modelled. Each `FeedbackUpdate` field is either absent or a value.
- Creating feedback takes two clock readings, one per default. Within any other request, every `datetime.utcnow()` call reads the same instant `now`. Dates are integers, and their text formatting is not modelled.
- `Crud.Acknowledged`: `acknowledged_at` and the `onupdate` value of `updated_at` are two separate clock readings in the source. The model takes them to be the same instant.
- A query without `order_by` (the user page of `get_users`, the team and feedback lists) is taken to return rows in insertion order. SQL promises no order there, and the page `offset`/`limit` selects depends on it.
- `Endpoints.ManagerOnly` uses the intended role test. As written, the test refuses every stored user with 403 (see "## Findings").
- `Endpoints.ReadUsers` uses the intended role test. As written, every stored user gets 403 "Not authorized" (see "## Findings").
- `Endpoints.MyTeam` uses the intended role test. As written, every stored user gets 403 "Not authorized" (see "## Findings").
- `Endpoints.GetManagerDashboard` uses the intended role test. As written, every stored user gets 403 "Manager access required" (see "## Findings").
- `Endpoints.CreateFeedbackGuard` uses the intended role test. As written, every caller gets 403 "Only managers can create feedback" (see "## Findings").
- `Endpoints.ReadFeedback` uses the intended role test. As written, every caller gets the feedback they received (see "## Findings").
- `Endpoints.UpdateFeedbackGuard` uses the intended role test. As written, every update of an existing record gets 403 (see "## Findings").
- The HTTP encoding and the acknowledge endpoint's response serialization are not modelled.
- JSON serialization is not modelled. The "user" entry of localStorage holds the user record itself, and text that `JSON.parse` would reject is not modelled.
- `window.location` is a string field, and the page reload it triggers is not modelled.
- The `setTimeout` delay of the demo login, and promise sequencing in general, are not modelled; each call runs to completion.
- The redirect of `/login` to `/dashboard` for an authenticated user (frontend/src/App.tsx:26) is router wiring and not part of this model.
- `FeedbackListPage.LocalAcknowledgeMatchesServer`: the page stamps `acknowledged_at` from the browser clock and the server from its own clock. The lemma takes the two to be one instant; the two times can differ in the source.
- `FeedbackListPage.Page.Load`: the fetched array is sorted in place by the page. The model gives the page a sorted copy, since the fetched array is never read again.
- `GiveFeedbackForm.ToNumber`: `Number(text)` is modelled only for decimal digit strings. Whitespace, signs, fractions and exponents are read as NaN rather than as JavaScript would read them. The select only ever holds "" or a user id's decimal spelling.
- `GiveFeedbackForm.TextFieldError`: lengths count characters of the string as modelled. JavaScript's `minLength` counts UTF-16 code units, so text outside the Basic Multilingual Plane can differ.
- Rendering, styling, toasts, the team-member fetch of the form, and pages other than the two modelled are not modelled.
