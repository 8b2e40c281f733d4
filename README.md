# StudyPal decision logic in Dafny

StudyPal is a study planner with an Express API server and a React client.
This project models the parts of it that make decisions or keep state.
Each part is proved against contracts.

- **Study plan generator** (`backend/src/routes/ai.js`). Preferences are normalised (non-empty focus areas and windows, study hours defaulting to 12). The weekly plan has five days. Each day rotates through the focus areas and windows, and every session gets the same whole number of hours. The summary and tips mention the target goal when one is given.
- **Today's Focus card** (`frontend/src/components/TodaysFocus.jsx`). Priority and due-date badges. Open tasks are ordered by due date with undated tasks last and ties kept in order. The card shows the first four tasks and a "+ N more" line. A task marked complete is removed. The card's state is the class `TodaysFocus.FocusPanel`.
- **Settings routes** (`backend/src/routes/settings.js`). The email pattern, notification normalisation and the order of the `PUT /profile` checks. The payloads are read back from the stored rows, and the write/read round trips for the profile and the integrations are proved. The three tables are the fields of `Settings.SettingsStore`.
- **Authentication middleware** (`backend/src/middleware/auth.js`). The chain of header checks, token verification and user lookup, with the 401/500 answer of each failure. A request passes only with a verified token whose user exists. Token verification and the database query are function-typed parameters. `AuthMiddleware.Exchange.Authenticate` performs the steps one by one and is proved to agree with `AuthMiddleware.Decide`.
- **API helper** (`frontend/src/utils/api.js`). The token lookup, the URL join and the header merge (the Bearer header the middleware parses, proved to round-trip). It also covers how a response becomes data, `null` or a thrown error.
- **Auth context** (`frontend/src/context/AuthContext.jsx`). The class `AuthContext.AuthStore` holds the user and the local storage that mirrors it. It covers login with the demo fallback, merging updates, logout, and restoring the session on reload.
- **Password reset page** (`frontend/src/pages/ForgotPassword.jsx`). The class `ForgotPassword.ResetPage` covers the ordered form checks and the state changes of both submissions.

Shared modules:

- `JsValues`: JSON values, JavaScript truthiness, property reads and object spread.
- `Sequences`: order-keeping selection (`IsSubsequence`), as `filter` performs it.
- `JsText`: whitespace as `trim` and `\s` see it, `trim`, `split` on one character with its inverse `Join`, decimal numerals, ASCII lower-casing and substring search.

Each asynchronous handler is split in two methods: the synchronous part up to the awaited request (`Start…`/`Submit…`), and the handling of its outcome (`Finish…`). This way the "loading" state between the two is visible. The outcome of every request is a parameter.

## Model

| member | source | states |
|---|---|---|
| JsText.TrimStart | backend/src/routes/settings.js:149 | the result is a suffix of the input; everything dropped is whitespace; the result does not start with whitespace |
| JsText.TrimEnd | backend/src/routes/settings.js:149 | the result is a prefix of the input; everything dropped is whitespace; the result does not end with whitespace |
| JsText.WhitespaceRunFrom | backend/src/routes/settings.js:149 | the run of whitespace starting at a position ends at the first non-whitespace character or at the end |
| JsText.WhitespaceRunUntil | backend/src/routes/settings.js:149 | the run of whitespace ending at a position starts just after the last non-whitespace character before it, or at the start |
| JsText.TrimEmptyIff | backend/src/routes/settings.js:149 | `!s.trim()` holds exactly when `s` is all whitespace (both directions) |
| JsText.TrimIdentity | frontend/src/pages/ForgotPassword.jsx:86 | a string without whitespace at either end trims to itself |
| JsText.JoinWithChar | backend/src/routes/ai.js:92-93 | `join` with a one-character string separator is the character join that `split` inverts |
| JsText.Split | backend/src/middleware/auth.js:21 | `split(' ')` gives at least one piece; the pieces contain no separator and join back to the input |
| JsText.SplitUnique | backend/src/middleware/auth.js:21 | splitting the join of separator-free pieces gives back exactly those pieces |
| JsText.NatToString | frontend/src/components/TodaysFocus.jsx:28 | a template literal renders a non-negative integer as a non-empty string of digits that denotes exactly that number and has no leading zero |
| JsText.ToLowerAscii | backend/src/routes/settings.js:164 | lower-casing keeps the length and maps each character on its own |
| JsText.ContainsFrom | frontend/src/utils/api.js:59 | `includes` holds exactly when the substring occurs at some position at or after the start; from the start this is plain containment |
| JsText.IndexOf | backend/src/routes/settings.js:30 | the first occurrence of a character, or none exactly when it does not occur |
| StudyPlan.NonEmptyEntries | backend/src/routes/ai.js:51-54 | `filter(Boolean)` keeps every non-empty entry with its multiplicity, drops every empty one, and keeps the entries in their order (a subsequence of the input) |
| StudyPlan.Normalize | backend/src/routes/ai.js:50-63 | both lists are non-empty with non-empty entries; study hours are the given non-zero number, else 12; goal and notes default to "" |
| StudyPlan.NonEmptyListEntries | backend/src/routes/ai.js:51-59 | the normalised lists never contain an empty entry |
| StudyPlan.NormalizeLists | backend/src/routes/ai.js:51-59 | a list keeps the caller's non-empty entries when there is one, and is the default exactly when the input is not an array or has no non-empty entry |
| StudyPlan.NonEmptyEntriesEmptyIff | backend/src/routes/ai.js:58-59 | the filtered list is empty exactly when every entry is empty (both directions) |
| StudyPlan.Rotated | backend/src/routes/ai.js:71-72 | an empty list yields nothing; otherwise the read is an entry of the list, and the first lap reads the entries in order |
| StudyPlan.FocusFor | backend/src/routes/ai.js:73 | every id yields one of the five focus areas: its own entry, or "concepts" for an unknown or missing id |
| StudyPlan.WindowFor | backend/src/routes/ai.js:74 | every id yields one of the five windows: its own entry, or "afternoon" for an unknown or missing id |
| StudyPlan.SessionsPerDay | backend/src/routes/ai.js:67 | one or two sessions a day, two exactly when at least two windows are preferred |
| StudyPlan.HoursPerSession | backend/src/routes/ai.js:66-68 | at least one hour; otherwise the whole number nearest to the weekly hours (at least 2) divided over five days of sessions, halves rounding up |
| StudyPlan.WindowNames | backend/src/routes/ai.js:92 | entry k is the name of window k in the table, or the id itself when the table has no entry for it |
| StudyPlan.FocusNames | backend/src/routes/ai.js:93 | entry k is the name of focus area k in the table, or the id itself when the table has no entry for it |
| StudyPlan.DayFor | backend/src/routes/ai.js:70-90 | the day's theme and description come from the rotated focus area, its block's label and range from the rotated window; the activity names the theme in lower case and the duration is the day's hours followed by "h" |
| StudyPlan.BuildPlan | backend/src/routes/ai.js:65-112 | five days Monday to Friday with one block each and the same hours; each day is the day `DayFor` builds for its index (theme, focus, window, activity, duration from the rotated lists); three tips: the readable window names, the readable focus names, and a last tip that, like the summary, names the goal when one is set and is the plain text otherwise; the provider is the built-in planner |
| StudyPlan.NormalizedPlanRotates | backend/src/routes/ai.js:50-74 | after normalisation day `i` uses focus area `i mod n` and window `i mod m`, never the fallback for a missing entry |
| StudyPlan.UniformDailyHours | backend/src/routes/ai.js:68-88 | all five days carry the same hours (at least 1) and the week totals five times that |
| StudyPlan.FocusAsWritten | backend/src/routes/ai.js:16-22 | the lookup as written also finds members inherited from Object.prototype, which are not focus areas |
| StudyPlan.WindowAsWritten | backend/src/routes/ai.js:24-30 | the same for the window lookup |
| StudyPlan.InheritedIdsAsWritten | backend/src/routes/ai.js:73-83 | focus area "toString" and window "constructor" survive normalisation; the lookups as written find no entry for them, while the corrected lookups fall back to "Concept review" and "Afternoon" |
| StudyPlan.FirstDay | backend/src/routes/ai.js:70-90 | the first day's theme and block label are those of the first focus area and the first window |
| StudyPlan.InheritedNamesAreNotEntries | backend/src/routes/ai.js:16-30 | no inherited member name is a key of either lookup table |
| TodaysFocus.PriorityMetaFor | frontend/src/components/TodaysFocus.jsx:5-13 | the badge of a known priority is its entry; a missing, null or unknown priority gets the medium badge |
| TodaysFocus.ToneClass | frontend/src/components/TodaysFocus.jsx:17-45 | every tone's CSS class starts with "due-" |
| TodaysFocus.ToneClassesDistinct | frontend/src/components/TodaysFocus.jsx:17-45 | two tones share a class only when they are the same tone |
| TodaysFocus.DueMetaFor | frontend/src/components/TodaysFocus.jsx:15-47 | every due date falls in exactly one tone: none, overdue (negative difference), today (0), soon (1 to 7), later (more than 7); each branch's label: "No due date", "Overdue by N day(s)", "Due today", "Due tomorrow", "Due in N days", "Due <short date>" |
| TodaysFocus.OverdueLabel | frontend/src/components/TodaysFocus.jsx:26-29 | an overdue label starts with "Overdue by" and the number of days, and uses the plural exactly when that number is not 1 |
| TodaysFocus.WithKeyAppend | frontend/src/components/TodaysFocus.jsx:61-65 | the tasks with one due key of a concatenation are those of each part, in order |
| TodaysFocus.PendingOf | frontend/src/components/TodaysFocus.jsx:60 | the filter keeps every task that is not completed, with its multiplicity, and no completed one, in their fetched order (a subsequence of the input) |
| TodaysFocus.Insert | frontend/src/components/TodaysFocus.jsx:61-65 | inserting into an ordered list adds the task once and keeps the list ordered by due date |
| TodaysFocus.InsertAtEndSorted | frontend/src/components/TodaysFocus.jsx:61-65 | appending a task due no earlier than the last keeps the order |
| TodaysFocus.InsertBeforeLastSorted | frontend/src/components/TodaysFocus.jsx:61-65 | placing a task due strictly before the last one keeps the order |
| TodaysFocus.InsertStable | frontend/src/components/TodaysFocus.jsx:61-65 | insertion goes after tasks with the same due key, so ties keep their order |
| TodaysFocus.InsertStableStep | frontend/src/components/TodaysFocus.jsx:61-65 | moving past a task due strictly later keeps each due-key group of the insertion in order |
| TodaysFocus.WithKeySingle | frontend/src/components/TodaysFocus.jsx:61-65 | a single task is in its own due-key group and in no other |
| TodaysFocus.SortByDue | frontend/src/components/TodaysFocus.jsx:61-65 | the result is a permutation, ordered by due date with undated tasks last, and stable: tasks with equal due dates keep their original order |
| TodaysFocus.SortStableStep | frontend/src/components/TodaysFocus.jsx:61-65 | one insertion step keeps every due-key group in original order |
| TodaysFocus.RemoveTask | frontend/src/components/TodaysFocus.jsx:85 | removal drops every task with the id and keeps every other one with its multiplicity and in its order (a subsequence of the input); an absent id changes nothing |
| TodaysFocus.RemoveKeepsNoneBefore | frontend/src/components/TodaysFocus.jsx:85 | when no task of the list sorts before a given task, no task left after removal does either |
| TodaysFocus.ConsSorted | frontend/src/components/TodaysFocus.jsx:61-65 | an ordered list stays ordered when a task due no later than all of it is put in front |
| TodaysFocus.RemoveKeepsOpen | frontend/src/components/TodaysFocus.jsx:85 | a list with no completed task has none after removal |
| TodaysFocus.RemoveKeepsOrder | frontend/src/components/TodaysFocus.jsx:85 | removing tasks from an ordered list leaves it ordered |
| TodaysFocus.VisibleTasks | frontend/src/components/TodaysFocus.jsx:94 | the shown tasks are the first min(4, n) tasks |
| TodaysFocus.Footnote | frontend/src/components/TodaysFocus.jsx:174-177 | the footnote appears exactly when more than four tasks remain, and reads "+ N more task(s) scheduled later" with N the number not shown and "task" singular exactly when N is 1 |
| TodaysFocus.LoadedList | frontend/src/components/TodaysFocus.jsx:60-66 | a loaded list is ordered by due date, holds no completed task, is a permutation of the fetched open tasks, and keeps tasks with equal due dates in their fetched order; a missing list loads as empty |
| TodaysFocus.FocusPanel.constructor | frontend/src/components/TodaysFocus.jsx:50-53 | the card starts empty, loading, with no error and no task being completed |
| TodaysFocus.FocusPanel.StartLoad | frontend/src/components/TodaysFocus.jsx:56-57 | a load sets loading and clears the error |
| TodaysFocus.FocusPanel.FinishLoad | frontend/src/components/TodaysFocus.jsx:58-71 | a load replaces the list by the loaded list or records the error, ends loading, and keeps the list ordered with no completed task |
| TodaysFocus.FocusPanel.StartComplete | frontend/src/components/TodaysFocus.jsx:79 | the task being completed is recorded |
| TodaysFocus.FocusPanel.FinishComplete | frontend/src/components/TodaysFocus.jsx:80-91 | success removes the task and dispatches one update event; failure records the error and keeps the list; either way the list stays ordered |
| Settings.NotificationsJson | backend/src/routes/settings.js:177 | the stored object has exactly the four switch keys, each holding its switch as a JSON boolean |
| Settings.NormalizeNotifications | backend/src/routes/settings.js:32-39 | each switch is the truthiness of its property; an absent input turns every switch off; a null input throws |
| Settings.NormalizeStoredNotifications | backend/src/routes/settings.js:32-39 | normalising the stored object of some switches gives those switches back |
| Settings.NormalizeIdempotent | backend/src/routes/settings.js:32-39 | normalising normalised switches changes nothing |
| Settings.EmailCheckMatchesPattern | backend/src/routes/settings.js:30 | the executable email check accepts exactly the strings `/^[^\s@]+@[^\s@]+\.[^\s@]+$/` matches (both directions) |
| Settings.CheckProfile | backend/src/routes/settings.js:147-160 | name first, then email, then notifications: 400 "Full name is required", 400 "A valid email is required", an error to `next` for null notifications, or, exactly when all three pass, the values to save (trimmed name, lower-cased email, time zone or its default, pronouns or "") |
| Settings.ProfileRejections | backend/src/routes/settings.js:149-155 | the name is refused exactly when absent or all whitespace, the email exactly when absent or not matching the pattern; an accepted name is non-empty |
| Settings.ProfilePayload | backend/src/routes/settings.js:91-115 | the name comes from the profile row, then the account, then the default; the email from the account or the default; timezone and pronouns from the row or the defaults; the switch keys are exactly the default keys plus the stored ones, stored switches override default ones and unset switches keep their defaults |
| Settings.NullColumnsReadAsDefaults | backend/src/routes/settings.js:117-134 | a missing row and a row of null columns read as the same default integrations; a column that holds a value is read as stored |
| Settings.StoredIntegrations | backend/src/routes/settings.js:196-215 | both stored switches are never null |
| Settings.IntegrationsRoundTrip | backend/src/routes/settings.js:196-222 | the answer after a save carries the keys sent (or "" for absent or null ones); calendar sync is on exactly when sent truthy; auto-push is on unless sent falsy |
| Settings.IntegrationsResaveStable | backend/src/routes/settings.js:117-134 | saving the integrations a read returned and reading them again changes nothing |
| Settings.ProfileRoundTrip | backend/src/routes/settings.js:160-180 | the answer after a save is exactly the saved name, email, time zone, pronouns (empty stays empty) and switches |
| Settings.AcceptedProfileEchoed | backend/src/routes/settings.js:145-181 | an accepted body is answered with its trimmed name, its lower-cased email and its normalised switches |
| Settings.DefaultProfile | backend/src/routes/settings.js:10-21 | with only the default user and no profile row, the profile is the default profile |
| Settings.SettingsStore.constructor | backend/src/routes/settings.js:80-134 | the store holds the given rows |
| Settings.SettingsStore.FetchUserAccount | backend/src/routes/settings.js:80-89 | the user row, inserted with the default name and email when missing |
| Settings.SettingsStore.GetProfile | backend/src/routes/settings.js:136-143 | the answer is the payload of the rows after the user row is ensured |
| Settings.SettingsStore.PutProfile | backend/src/routes/settings.js:145-185 | a refused body writes nothing; an accepted one writes the user row and the profile row and answers with the payload read back |
| Settings.SettingsStore.GetIntegrations | backend/src/routes/settings.js:187-194 | the answer is the payload of the stored row |
| Settings.SettingsStore.PutIntegrations | backend/src/routes/settings.js:196-222 | with a users row, the integrations row becomes what the body gives and the answer is that row read back; without one, the insert breaks the reference to `users` (settings.js:69), nothing is written and the request fails |
| AuthMiddleware.CheckHeader | backend/src/middleware/auth.js:14-30 | a missing or empty header is refused as such; a token is found only when the header is exactly "Bearer " followed by a non-empty token without spaces |
| AuthMiddleware.BearerSplit | backend/src/middleware/auth.js:21-26 | "Bearer <token>" splits into exactly those two pieces when the token has no space |
| AuthMiddleware.CheckBearerHeader | backend/src/middleware/auth.js:16-30 | for a client's header: accepted exactly when the token is non-empty without spaces; "No token provided" for an empty token; a format error for a token with a space |
| AuthMiddleware.AcceptedHeaderIsBearer | backend/src/middleware/auth.js:21-26 | every accepted header is the Authorization header the client builds for the token found |
| AuthMiddleware.BearerRoundTrip | frontend/src/utils/api.js:22-30 | the Authorization header the client sends for a stored token without spaces yields that same token, whatever the caller's own headers |
| AuthMiddleware.Decide | backend/src/middleware/auth.js:11-71 | a request passes exactly when the header holds a token that verifies and whose user row exists, and it then carries that row; a verified token with no row gives 401 "User not found"; a verifier or query failure gives 500 "Authentication failed"; every other refusal is a 401 with its own message |
| AuthMiddleware.RejectedHeaderSkipsOracles | backend/src/middleware/auth.js:16-30 | a refused header is answered without consulting the verifier or the database |
| AuthMiddleware.OnlyTokenAndIdMatter | backend/src/middleware/auth.js:32-55 | the decision depends only on the verifier's verdict for the header's token and the query's rows for the decoded id |
| AuthMiddleware.Exchange.constructor | backend/src/middleware/auth.js:11 | a fresh exchange has no user, no answer and no call to next |
| AuthMiddleware.Exchange.Authenticate | backend/src/middleware/auth.js:11-71 | on acceptance `req.user` is the row and `next` is called once with no answer sent; on refusal the status and error are sent, and `req.user` and `next` are untouched |
| ApiClient.BuildRequest | frontend/src/utils/api.js:6-45 | the request goes to the joined URL; it carries an Authorization header exactly when the caller gave one or a non-empty token is stored in a browser window, and the stored token then wins; outside a window no token is added; other caller headers are kept |
| ApiClient.MergeHeaders | frontend/src/utils/api.js:20-30 | JSON content type unless overridden, every caller header kept, and "Bearer <token>" overriding the caller's Authorization exactly when a non-empty token exists |
| ApiClient.BuildUrl | frontend/src/utils/api.js:33-35 | an absolute endpoint is kept as is; any other is appended to the base with one slash before it when it lacks one |
| ApiClient.LeadingSlashOptional | frontend/src/utils/api.js:33-35 | a leading slash on a relative endpoint does not change the URL |
| ApiClient.CallResult | frontend/src/utils/api.js:54-73 | data is returned only for an ok response: null for a non-JSON one, else the parsed body; a failed JSON response with a `null` body throws a TypeError, one with any other body throws its truthy `error` or "Request failed: <status>"; an unparseable JSON body throws a SyntaxError; a failed non-JSON one throws "Request failed: <status> <statusText>" |
| AuthContext.InitialUser | frontend/src/context/AuthContext.jsx:8-15 | with nothing stored the user is null; a non-null initial user is exactly the value stored under the session key, and a parseable stored value is always the one restored |
| AuthContext.Mirrored | frontend/src/context/AuthContext.jsx:17-23 | the storage effect stores a truthy user, removes a falsy one, and leaves every other key alone |
| AuthContext.ReloadRestoresSession | frontend/src/context/AuthContext.jsx:8-23 | after the effect, a reload restores a signed-in user exactly and a signed-out state as null |
| AuthContext.LoginUser | frontend/src/context/AuthContext.jsx:25-28 | login signs in unless the given user is falsy but not null; any user other than the demo user is the one given, and a non-null given user is used as is |
| AuthContext.UpdatedUser | frontend/src/context/AuthContext.jsx:30-32 | an update is an object with the current fields overwritten by the partial's fields; it is always truthy |
| AuthContext.EmptyUpdateKeepsUser | frontend/src/context/AuthContext.jsx:30-32 | an empty or absent partial keeps an object user as it is |
| AuthContext.UpdatesCompose | frontend/src/context/AuthContext.jsx:30-32 | two updates equal one update with the second partial merged over the first |
| AuthContext.AuthStore.IsAuthenticated | frontend/src/context/AuthContext.jsx:39 | signed in exactly when the session key is in storage |
| AuthContext.AuthStore.constructor | frontend/src/context/AuthContext.jsx:8-23 | the user read from storage, then mirrored back into it |
| AuthContext.AuthStore.SetUser | frontend/src/context/AuthContext.jsx:17-23 | setting the user runs the storage effect |
| AuthContext.AuthStore.Login | frontend/src/context/AuthContext.jsx:25-28 | the user becomes the login user and storage mirrors it |
| AuthContext.AuthStore.UpdateUser | frontend/src/context/AuthContext.jsx:30-32 | the user becomes the merged object and is stored; signed in afterwards, even after a logout |
| AuthContext.AuthStore.Logout | frontend/src/context/AuthContext.jsx:34 | the user becomes null and the stored session is removed |
| ForgotPassword.TextField | frontend/src/pages/ForgotPassword.jsx:49-50 | a property of the answer that is a non-empty string, or nothing |
| ForgotPassword.ResetProblem | frontend/src/pages/ForgotPassword.jsx:66-79 | the first failing check, in order: blank code, password shorter than 8, confirmation differing; none exactly when all three pass |
| ForgotPassword.AcceptedResetForm | frontend/src/pages/ForgotPassword.jsx:66-79 | a form that passes has a non-blank code and a confirmed password of at least 8 characters |
| ForgotPassword.ResetPage.constructor | frontend/src/pages/ForgotPassword.jsx:9-22 | empty fields, with the code taken from the `token` parameter or "" |
| ForgotPassword.ResetPage.TokenParamChanged | frontend/src/pages/ForgotPassword.jsx:24-29 | a non-empty `token` parameter replaces the code; otherwise the form is unchanged |
| ForgotPassword.ResetPage.EditEmail | frontend/src/pages/ForgotPassword.jsx:123 | the email input sets the email |
| ForgotPassword.ResetPage.EditToken | frontend/src/pages/ForgotPassword.jsx:169 | the code input sets only the code |
| ForgotPassword.ResetPage.EditPassword | frontend/src/pages/ForgotPassword.jsx:182 | the password input sets only the password |
| ForgotPassword.ResetPage.EditConfirm | frontend/src/pages/ForgotPassword.jsx:195 | the confirmation input sets only the confirmation |
| ForgotPassword.ResetPage.SubmitRequest | frontend/src/pages/ForgotPassword.jsx:31-48 | earlier messages are cleared; a blank email is refused with its message; any other is sent trimmed and loading starts |
| ForgotPassword.ResetPage.FinishRequest | frontend/src/pages/ForgotPassword.jsx:49-58 | an answer shows its message or the default one, and a dev token is shown and copied into the reset form; a failure shows its message; loading ends |
| ForgotPassword.ResetPage.SubmitReset | frontend/src/pages/ForgotPassword.jsx:61-89 | the first failing check is shown; otherwise the trimmed code and the password are sent and loading starts |
| ForgotPassword.ResetPage.FinishReset | frontend/src/pages/ForgotPassword.jsx:90-96 | an answer shows its message or the default one and empties both password fields but keeps the code; a failure shows its message; loading ends |

## Left out

- Database statements, `fetch`, `localStorage`, `jwt.verify` and the clock are not modelled as code. Rows, responses, stored items and verifier verdicts are parameters or class fields.
- `metadata.generatedAt` of a plan (`new Date().toISOString()`) is left out. So is the route handler around `buildPlan` (auth, the `ai_plans` insert).
- `backend/src/routes/stats.js` is not part of this model. Neither are table creation (`ensureSettingsTables`, `ensureAiPlansTable`), the other routes and rendering.
- `getDueMeta`'s date arithmetic and `toLocaleDateString` are not modelled. `TodaysFocus.DueMetaFor` takes the day difference and the short date text as inputs.
- `TodaysFocus.DueBefore` compares due dates as integers (`getTime()` values). Date parsing and invalid dates (`NaN` from `new Date`) are not modelled.
- `TodaysFocus.SortByDue` is stated as a stable sort. `Array.prototype.sort` is stable since ES2019, so this matches every current engine. Older engines could order ties differently.
- `TodaysFocus.FocusPanel` keeps the task list but not the rendering. The `tasks:updated` window event is only counted.
- `TodaysFocus.PriorityMetaFor`: a priority spelled like an inherited object member (for example "toString") is not modelled. The model gives it the medium badge; the source reads a badge without a label.
- `StudyPlan.Normalize`: `Number(input.studyHours)` is taken as given, either a number or NaN. String parsing is not modelled, and neither is Infinity.
- `StudyPlan.Normalize`: `targetGoal` and `notes` are modelled as strings. Non-string values are not.
- `StudyPlan.Normalize`: the lists are modelled as arrays of strings. Non-string truthy entries (numbers, objects) are not modelled.
- `JsText.ToLowerAscii` lower-cases only ASCII letters; `toLowerCase` also maps other letters. Lengths are counted in code points, not UTF-16 units. This matters for the 8-character password rule in `ForgotPassword.ResetProblem` only for characters outside the Basic Multilingual Plane.
- `JsValues.Spread` gives no keys for strings and arrays, which spread their index keys in JavaScript. `JsValues.Json` objects are maps, so key order is not modelled.
- `Settings.CheckProfile` takes the body's name, email, time zone and pronouns as strings or absent. A non-string value (which makes `trim` throw or `test` stringify) is not modelled, and neither is an explicit `null` for pronouns (which `??` also replaces by "").
- `Settings.SettingsStore.PutProfile` runs its statements without failures. A database error passed to `next` is not modelled, and neither are the concurrent requests the separate statements allow.
- The `console.error` call in the middleware's catch block (backend/src/middleware/auth.js:68) is not modelled. It only logs. `AuthMiddleware.Decide` models the 500 "Authentication failed" answer that follows it.
- `AuthMiddleware.Decide` reads only the `id` of a verified payload. The verifier's secret, algorithms and expiry checks are behind its parameter. A `next()` that throws, which would send a 500 after the call, is not modelled.
- `ApiClient.MergeHeaders` treats caller headers as a plain object. A `Headers` instance, whose entries an object spread does not copy, is not modelled, and neither are header-name case rules. The `fetch` options other than the headers are passed through and not modelled.
- `Settings.StoredIntegrations` takes each key of the `PUT /integrations` body as absent, null or a string. The route stores whatever value is sent; a number, boolean or object key (which the database would convert or refuse) is not modelled.
- `StudyPlan.HoursPerSession` computes with exact rationals; the rounding of IEEE doubles in the division is not modelled. `StudyPlan.DayFor` writes the duration in plain digits, while `${hoursPerSession}h` switches to exponent notation from 1e21 up.
- `ForgotPassword.ResetPage.FinishRequest` and `FinishReset` take the answer's `message` and `resetToken` when they are non-empty strings. A truthy non-string value, which the page would render as text, is treated as absent. The TypeError text for a null answer uses the V8 wording.
- The `disabled` state of the submit buttons while loading is not modelled. Every submission is allowed in the model.

## Findings

| source | as written | input that shows it | evidently intended | confidence | as-written member | corrected member |
|---|---|---|---|---|---|---|
| backend/src/routes/ai.js:73-83 | `FOCUS_LOOKUP[focusId] ?? FOCUS_LOOKUP.concepts` also finds members every object inherits (`toString`, `constructor`, ...). These are not nullish, so the fallback is skipped and `focus.label.toLowerCase()` throws a TypeError. `WINDOW_LOOKUP[windowId]` gives a window with no label or range. | preferences `{ focusAreas: ["toString"], preferredWindows: ["constructor"] }` | only the table's own entries are found; any other id falls back to "concepts" / "afternoon" | not executed | StudyPlan.FocusAsWritten, StudyPlan.WindowAsWritten, StudyPlan.InheritedIdsAsWritten | StudyPlan.FocusFor, StudyPlan.WindowFor |
