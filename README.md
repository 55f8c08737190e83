# Neuro-resume frontend: a verified model of its decision logic

Neuro-resume is a single-page web client for an AI interviewer. The AI
interviews the user in a chat and writes a résumé from the conversation. This
project models in Dafny the parts of the client whose behaviour can be stated
exactly:

- the HTTP client wrapper: the token store in local storage, request headers,
  the classification of every response into a value or an `ApiException`,
  and the mapping of runtime failures to error codes;
- the endpoint builders and the storage keys of the configuration;
- the screens' state machines: the sessions list (pagination, résumé index,
  optimistic delete), the interview chat, the completion and preview
  screens, the settings and profile forms, the password-change dialog and
  the login screen;
- the authentication context, the main layout's page classifier and route
  table, and the app-level start/interview/complete machine.

Each screen is a `class`. Its fields are the component's `useState`
variables and its methods are the event handlers. A handler that awaits the
network takes the reply as a parameter: `Reply<T>` is either `Ok(value)` or
`Fail(thrown)`. Every request the handler makes, and every callback it calls or
schedules with `setTimeout`, is appended to the screen's `log`. So "no API
call" is stated as "the log is unchanged". A timer's callback is a separate
method ("…Fired"). Local storage is the class `LocalStorage.Storage` over a
`map<string, string>`, and the current time is a parameter `now`.

Modules, one per source file, plus shared helpers:

| module | file | models |
|---|---|---|
| `Js` | js.dfy | `Option`, thrown values, `String.prototype.trim`, `startsWith`, `includes`, `slice`, UTF-16 length |
| `Numbers` | numbers.dfy | `Number#toString` and `parseInt(s, 10)` on integers |
| `Json` | json.dfy | parsed JSON values, property reads, truthiness, `String(v)`, `Array#join`, `JSON.stringify({ username })` |
| `Types` | types.dfy | the records the screens read (src/types/api.ts, with the fields the use sites actually read) |
| `LocalStorage` | storage.dfy | `localStorage` |
| `Config` | config.dfy | src/config/api.ts |
| `ApiClient` | api_client.dfy | src/lib/api-client.ts |
| `Auth` | auth_context.dfy | src/contexts/AuthContext.tsx |
| `Layout` | main_layout.dfy | src/layouts/MainLayout.tsx |
| `AppFlow` | app.dfy | src/App.tsx |
| `SessionQueries` | session_queries.dfy | the status counts, `find`, `slice(0, n)` and the résumé filename shared by several screens |
| `Sessions` | sessions_screen.dfy | src/components/SessionsScreen.tsx |
| `Interview` | interview_session.dfy | src/components/InterviewSession.tsx |
| `Completion` | completion_screen.dfy | src/components/CompletionScreen.tsx |
| `Preview` | resume_preview.dfy | src/components/ResumePreview.tsx |
| `Settings` | settings_screen.dfy | src/components/SettingsScreen.tsx |
| `Profile` | profile_screen.dfy | src/components/ProfileScreen.tsx |
| `ChangePassword` | change_password.dfy | src/components/ChangePasswordDialog.tsx |
| `Login` | login_screen.dfy | src/components/LoginScreen.tsx |

Where the code and its documented intent differ, the model follows the code:

- `isTokenExpired` compares `now > parseInt(expiry, 10)`. An expiry that
  does not start with digits parses to `NaN`, and the comparison is then
  false. So such a token counts as *not* expired. An empty expiry string
  counts as expired, because `!expiry` is true for it.
- The `Authorization` header is present when the stored token is non-empty.
  It is also present when the caller supplied one, because the caller's
  headers are spread in too. The stored token's header overrides the caller's.
- `ProfileScreen` reads `response.data` and `CompletionScreen` and
  `ResumePreview` read `sessions.data`, although the declared list type has
  `items`. `SessionsScreen` and `SettingsScreen` read `items`. `Page<T>`
  therefore carries both fields. On a missing `data`, the two résumé screens
  raise a TypeError, which their `catch` turns into the error message.
- `SessionsScreen` and `SettingsScreen` compare lower-case statuses
  (`completed`, `in_progress`). `ProfileScreen` compares upper-case ones. So a
  session's status is a plain string.
- `AuthContext` keeps the user under `auth_user`. This is not the token
  store's `user_data` key, so `clearAuthToken` never removes it
  (`Auth.StoresIndependent`).

## Model

| member | source | states |
|---|---|---|
| Config.BaseUrl | src/config/api.ts:2 | an unset or empty `VITE_API_URL` falls back to the local server URL, and any other value is used as it is |
| Config.InterviewSession | src/config/api.ts:29 | the session path is `/interview/sessions/` followed by exactly the id |
| Config.Resume | src/config/api.ts:36 | the résumé path is `/resumes/` followed by exactly the id |
| Config.EndpointsStartWithSlash | src/config/api.ts:20-44 | every fixed endpoint and every built endpoint starts with '/' |
| Config.EndpointsExtendResourcePath | src/config/api.ts:29-39 | messages, complete and resume extend the session path by '/messages', '/complete' and '/resume'; download and regenerate extend the résumé path by '/download?format=' + format and '/regenerate' |
| Config.EndpointsInjective | src/config/api.ts:29-36 | different ids give different session paths and different résumé paths |
| Config.StorageKeysDistinct | src/config/api.ts:13-17 | the three token-store keys are pairwise distinct |
| Numbers.ParseIntOfIntToString | src/lib/api-client.ts:26-33 | `parseInt(n.toString(), 10)` reads back n for every integer, so a stored expiry reads back as written |
| Numbers.DigitsOfNatToString | src/lib/api-client.ts:33 | the decimal digits of a natural number have that number as their value |
| Js.TrimProperties | src/components/InterviewSession.tsx:61-63 | a string is blank iff it is all white space; a non-empty trimmed string starts and ends with non-white-space |
| Js.TrimStartBlank | src/components/LoginScreen.tsx:28 | trimming leaves nothing iff the string is all white space |
| Json.UnescapeEscape | src/contexts/AuthContext.tsx:26 | decoding a JSON string literal inverts the escaping `JSON.stringify` applies, for every string |
| Json.ParseStringifyUser | src/contexts/AuthContext.tsx:16-26 | parsing `JSON.stringify({ username })` yields the object `{ username }` again |
| ApiClient.SetAuthToken | src/lib/api-client.ts:30-33 | the store afterwards holds the token and the expiry `now + 1000 * expiresIn` written in decimal, and nothing else changes |
| ApiClient.ClearAuthToken | src/lib/api-client.ts:41-44 | the store afterwards is the old store without the token, expiry and user-data keys |
| ApiClient.IsTokenExpiredCases | src/lib/api-client.ts:23-27 | no expiry or an empty one means expired; a readable expiry e means expired iff now > e; a non-empty expiry `parseInt` cannot read means not expired |
| ApiClient.SetTokenThenCheck | src/lib/api-client.ts:23-33 | after setting, the token reads back; the token is expired at a later time iff that time passes now + 1000 * expiresIn; with expiresIn ≥ 0 it is not expired at once |
| ApiClient.ClearTokenFrame | src/lib/api-client.ts:41-46 | after clearing, no token is read and the token counts as expired; every other key keeps its value |
| ApiClient.TokenLifecycle | src/lib/api-client.ts:23-46 | after any sequence of sets and clears, the last operation alone decides expiry: after a clear the token is expired, and after a set it is expired iff now > at + 1000 * expiresIn; with no operation the initial store decides |
| ApiClient.HeadersProperties | src/lib/api-client.ts:53-62 | `Authorization` is `Bearer <token>` whenever the stored token is non-empty, overriding the caller's; otherwise it is the caller's, if any; Content-Type is JSON unless the caller overrides it; no other header is added |
| ApiClient.ApiFetch | src/lib/api-client.ts:53-73 | the request goes to base URL + endpoint with the built headers; a rejected `fetch` always ends in an `ApiException` without a status |
| ApiClient.AsThrown | src/lib/api-client.ts:5-14 | an `ApiException` is an `Error` named 'ApiException' whose message handlers read back unchanged |
| ApiClient.ValidationEntries | src/lib/api-client.ts:171-176 | the validation details are defined iff every entry maps without a TypeError, and then there is one detail per entry, in order |
| ApiClient.ResponseOutcomes | src/lib/api-client.ts:78-125 | 204 resolves with no value; a non-JSON content type gives the raw response when ok and `HTTP_ERROR` otherwise; an unreadable or unparseable body gives `PARSE_ERROR` when ok and `HTTP_ERROR` otherwise; a blank body resolves with no value when ok; a parsed body resolves with its data when ok |
| ApiClient.OutcomeByStatus | src/lib/api-client.ts:78-216 | an ok response resolves or fails with `PARSE_ERROR`; a non-ok response always rejects, and with the response's status unless a TypeError was raised on the way |
| ApiClient.EnvelopeStatus | src/lib/api-client.ts:127-200 | every `ApiException` built from an error body carries the response status; the only other outcome is a TypeError |
| ApiClient.EnvelopePrecedence | src/lib/api-client.ts:129-191 | a body that is not a truthy object or array gives the status fallback; then an object `detail` holding `error` wins (a `null` one raises a TypeError); then a truthy object-like `error`, with code, message and details passed through; otherwise a string `detail` is `HTTP_ERROR` with its text, an array `detail` is `VALIDATION_ERROR` 'Validation failed' (or a TypeError when an entry cannot be read); without `detail`, `message` is `HTTP_ERROR` and its absence the status fallback |
| ApiClient.DetailShadowsMessage | src/lib/api-client.ts:160-200 | a `detail` that is neither a string, an array nor an object holding `error`, beside an `error` that is not a truthy object or array, gives the status fallback, even when `message` is present |
| ApiClient.ValidationEntryFields | src/lib/api-client.ts:171-175 | a validation entry's field is `loc` joined with '.' or 'unknown' when that is empty, and its message is a truthy `msg` or 'Validation error' |
| ApiClient.CatchErrorCases | src/lib/api-client.ts:204-216 | an `ApiException` is rethrown unchanged; `AbortError` becomes `TIMEOUT`; any other Error becomes `NETWORK_ERROR` with its message; anything else becomes `UNKNOWN_ERROR`; the mapping is idempotent |
| ApiClient.DetailStringExample | src/lib/api-client.ts:160-168 | `{"detail": "bad username"}` at 400 gives `HTTP_ERROR` with that text and status 400 |
| ApiClient.ValidationExample | src/lib/api-client.ts:169-182 | a validation entry at `["body", "email"]` gives the field 'body.email' with its message |
| Auth.AuthProvider.constructor | src/contexts/AuthContext.tsx:9 | the provider starts with no user (`null`), so it is not authenticated |
| Auth.AuthProvider.Restore | src/contexts/AuthContext.tsx:12-21 | the user and the store afterwards are those the startup restore defines: a parseable `auth_user` restores the user, an unparseable one is removed, and an absent or empty one changes nothing |
| Auth.RestoredItems | src/contexts/AuthContext.tsx:13-19 | the restore removes `auth_user` exactly when the stored text is non-empty and does not parse, and touches no other key |
| Auth.AuthProvider.Login | src/contexts/AuthContext.tsx:23-27 | the user becomes `{ username }` and is authenticated, and its serialisation is stored under `auth_user`; the password is ignored |
| Auth.AuthProvider.Logout | src/contexts/AuthContext.tsx:29-32 | the user becomes null and is not authenticated, and `auth_user` is removed |
| Auth.LoginThenRestore | src/contexts/AuthContext.tsx:13-31 | for any parser that reads the stored record back, restoring after a login yields the same user and keeps the store; restoring after a logout yields null |
| Auth.LoginThenRestoreCanonical | src/contexts/AuthContext.tsx:13-26 | with the canonical parser, restoring after a login yields the same user |
| Auth.FalsyRestoreNotAuthenticated | src/contexts/AuthContext.tsx:16-38 | a stored `null` or `false` restores a user that is not authenticated |
| Auth.StoresIndependent | src/contexts/AuthContext.tsx:13 | clearing the token store keeps `auth_user`, and removing `auth_user` changes neither the token nor its expiry |
| Layout.RouteRoundTrip | src/layouts/MainLayout.tsx:11-24 | every page's route classifies back to that page; the route table is injective; extending the sessions or profile route keeps its page |
| Layout.PrefixExamples | src/layouts/MainLayout.tsx:11-15 | '/sessionsX' is the sessions page, '/profile/edit' the profile page, and '/login' and '' the start page |
| Layout.HandleNavigate | src/layouts/MainLayout.tsx:17-24 | navigating to a page goes to its route, which classifies back to the page |
| Layout.HandleLogout | src/layouts/MainLayout.tsx:26-29 | logout ends authentication (the user becomes `null`), removes `auth_user` and nothing else from storage, then navigates to '/login' replacing the history entry |
| AppFlow.Rendered | src/App.tsx:44-55 | exactly one screen is rendered, and it is the one that belongs to the state |
| AppFlow.App.constructor | src/App.tsx:16-17 | the app starts in 'start' with no session data |
| AppFlow.App.HandleStartSession | src/App.tsx:19-21 | start moves to 'interview' and keeps the session data |
| AppFlow.App.HandleCompleteSession | src/App.tsx:23-26 | completion stores the given messages and moves to 'complete' |
| AppFlow.App.HandleCancelSession | src/App.tsx:28-37 | a confirmed cancel resets to 'start' with no data; an unconfirmed one changes nothing |
| AppFlow.App.HandleRestart | src/App.tsx:39-42 | restart always resets to 'start' with no data |
| SessionQueries.TwoCountsBounded | src/components/SettingsScreen.tsx:354-370 | the counts of two different statuses add up to at most the number of sessions |
| SessionQueries.ThreeCountsBounded | src/components/ProfileScreen.tsx:347-370 | the counts of three different statuses add up to at most the number of sessions |
| SessionQueries.FirstSessions | src/components/ProfileScreen.tsx:394 | `slice(0, n)` has min(n, length) elements, the first ones in order |
| SessionQueries.FindSession | src/components/CompletionScreen.tsx:46-48 | `find` gives nothing iff no session has the id, and otherwise a session of the list with that id |
| SessionQueries.LookupSession | src/components/ResumePreview.tsx:46-52 | the lookup fails with a TypeError iff `data` is missing, finds nothing iff no listed session has the id, and otherwise yields a listed session with that id |
| SessionQueries.StoredResumeFilename | src/components/CompletionScreen.tsx:67 | the filename is 'resume-', then the first 8 characters of the id (or the whole id when it is shorter), then '.md' |
| SessionQueries.DownloadOf | src/components/CompletionScreen.tsx:105-117 | a download happens iff there is non-empty markdown, and it holds that markdown under the given filename |
| Sessions.BuildResumeIndex | src/components/SessionsScreen.tsx:100-108 | the `forEach` loop builds the résumé index `ResumeIndex` |
| Sessions.ResumeIndexSpec | src/components/SessionsScreen.tsx:100-108 | a session id is in the index iff it is non-empty and some résumé has it, and then the index holds the last such résumé |
| Sessions.WithoutSessionCounts | src/components/SessionsScreen.tsx:166 | the filter removes every session with the id and keeps every other one as often as it occurred; with no such session the list is unchanged |
| Sessions.WithoutSessionMembers | src/components/SessionsScreen.tsx:166 | a session is kept iff it was in the list and has another id |
| Sessions.GetStatusText | src/components/SessionsScreen.tsx:212-223 | the three lower-case statuses get their labels; any other status is shown unchanged |
| Sessions.IsClickable | src/components/SessionsScreen.tsx:320 | a card is clickable iff its status is 'in_progress' |
| Sessions.SessionsScreen.constructor | src/components/SessionsScreen.tsx:37-54 | the screen starts empty and loading, with no error and no dialog |
| Sessions.SessionsScreen.LoadData | src/components/SessionsScreen.tsx:62-504 | a refresh asks for offset 0 and replaces the list; "load more" asks from the current length and appends; missing items, total and has_more become empty, 0 and false; the résumés are asked for with limit max(count, 10) and offset 0 and indexed; a résumé failure keeps the new page and sets the error; a sessions failure changes no data; both loading flags end false; "load more" keeps the loaded sessions as a prefix followed by exactly the new page; after a successful load the "show more" button (line 504) is shown iff the reply's `has_more` is true and the list is non-empty, after a failed one iff `hasMore` was already true and the list non-empty; after both replies succeed a session gets the "complete" button (line 357) iff it is in progress and no résumé of the reply names it |
| Sessions.ResumeIndexKeys | src/components/SessionsScreen.tsx:100-108 | the index has a key exactly for each non-empty session id some résumé names |
| Sessions.SessionsScreen.HandleDeleteSession | src/components/SessionsScreen.tsx:153-156 | the target is remembered and the dialog opens, with no request |
| Sessions.SessionsScreen.CancelDelete | src/components/SessionsScreen.tsx:531-534 | the dialog closes and the target is forgotten, with no request |
| Sessions.SessionsScreen.ConfirmDelete | src/components/SessionsScreen.tsx:158-182 | with no target nothing happens; otherwise the delete is requested, a success removes exactly that id's sessions and lowers the total by one but not below 0, a failure keeps list and total and sets the error; either way the dialog closes and the target is cleared |
| Sessions.SessionsScreen.CompleteSession | src/components/SessionsScreen.tsx:184-197 | completion is requested; success refreshes the list from offset 0; failure sets the error and changes no data |
| Sessions.SessionsScreen.DownloadResume | src/components/SessionsScreen.tsx:138-151 | the download is requested; only a failure changes the screen, by setting the error |
| Sessions.SessionsScreen.ClickCard | src/components/SessionsScreen.tsx:318-330 | clicking a card continues its session iff the card is clickable, and changes nothing else |
| Interview.InterviewSession.constructor | src/components/InterviewSession.tsx:27-33 | the chat starts empty, with progress 0 and no dialog |
| Interview.InterviewSession.LoadMessages | src/components/InterviewSession.tsx:48-58 | success replaces the messages with the history; failure only sets the error |
| Interview.InterviewSession.SetInput | src/components/InterviewSession.tsx:224 | typing changes only the input |
| Interview.InterviewSession.BeginSend | src/components/InterviewSession.tsx:60-71 | a send happens iff the input is not blank and no answer is awaited; it posts the trimmed input, which starts and ends with non-white-space, then clears the input and the error and sets `isTyping` |
| Interview.InterviewSession.FinishSend | src/components/InterviewSession.tsx:73-98 | success appends exactly the user's message and then the answer, takes over the progress and schedules `onComplete` iff it reached 100; failure keeps messages and progress and sets the error; `isTyping` ends false |
| Interview.InterviewSession.CanSend | src/components/InterviewSession.tsx:61 | a message can be sent iff the input holds a character that is not white space and no answer is awaited |
| Interview.InterviewSession.HandleSendMessage | src/components/InterviewSession.tsx:60-98 | without a sendable input nothing happens; otherwise the trimmed input is posted, followed by the scheduled completion exactly when the reply succeeds with 100 % or more; the input is cleared, typing ends, and the success and failure outcomes are those of the reply |
| Interview.InterviewSession.OpenEndDialog | src/components/InterviewSession.tsx:154 | the end dialog opens and nothing else changes |
| Interview.InterviewSession.CloseEndDialog | src/components/InterviewSession.tsx:260 | the end dialog closes and nothing else changes |
| Interview.InterviewSession.EarlyComplete | src/components/InterviewSession.tsx:107-127 | completion is requested; success closes the dialog and schedules `onComplete` after 500 ms; failure closes it and sets the error, with no `onComplete`; `isCompleting` ends false |
| Interview.InterviewSession.ReturnLater | src/components/InterviewSession.tsx:129-132 | the dialog closes and `onCancel` is called, with no request |
| Completion.CompletionScreen.constructor | src/components/CompletionScreen.tsx:20-24 | the screen starts loading, with no markdown and the filename 'resume.md' |
| Completion.CompletionScreen.FetchResume | src/components/CompletionScreen.tsx:26-101 | without a session id loading ends with no request and no error; otherwise a missing session gives 'Сессия не найдена' with no completion; stored markdown is used with the filename 'resume-' + the first 8 characters of the id + '.md'; otherwise completion is requested and gives its content and filename (or 'resume.md'), or the fixed retry message; a failed list gives the error's message; the filename changes only when a résumé is found or generated; loading ends false |
| Completion.CompletionScreen.HandleDownloadMarkdown | src/components/CompletionScreen.tsx:105-117 | download happens iff there is markdown, with the current filename |
| Preview.ResumePreview.constructor | src/components/ResumePreview.tsx:24-29 | the preview starts loading, not copied, with the filename 'resume.md' |
| Preview.ResumePreview.FetchResume | src/components/ResumePreview.tsx:31-75 | without a session id the error is 'Не указан ID сессии' with no request; a missing session gives 'Сессия не найдена'; stored markdown is shown with the filename 'resume-' + the first 8 characters of the id + '.md'; a session without it gives 'Резюме не найдено для этой сессии'; a failure gives its message; the filename changes only on the stored-résumé path; loading ends false |
| Preview.ResumePreview.HandleCopyMarkdown | src/components/ResumePreview.tsx:77-83 | with markdown it is copied, `copied` is set and its reset scheduled after 2000 ms; without, nothing happens |
| Preview.ResumePreview.CopiedResetFired | src/components/ResumePreview.tsx:81 | the scheduled reset clears `copied` and nothing else changes |
| Preview.ResumePreview.HandleDownloadMarkdown | src/components/ResumePreview.tsx:85-97 | download happens iff there is markdown, with the current filename |
| Settings.UpdateRequestSpec | src/components/SettingsScreen.tsx:97-101 | the update carries first name, last name and phone each iff it is non-empty, with its value, and never depends on the email |
| Settings.UntouchedFormRequest | src/components/SettingsScreen.tsx:76-101 | saving an unedited form sends back each user field unless it was empty |
| Settings.SettingsScreen.constructor | src/components/SettingsScreen.tsx:33-48 | the screen starts loading with no user and an empty form |
| Settings.SettingsScreen.Statistics | src/components/SettingsScreen.tsx:354-370 | the cards show the number of sessions with status 'in_progress', the number with 'completed', and the number of all sessions; the first two add up to at most the third |
| Settings.SettingsScreen.LoadProfileData | src/components/SettingsScreen.tsx:70-90 | success sets the user and fills each form field from it, missing ones as ''; failure keeps the user and sets the error; loading ends false |
| Settings.SettingsScreen.LoadSessions | src/components/SettingsScreen.tsx:55-68 | the first 10 sessions are asked for; success shows `items`, or none; failure changes nothing |
| Settings.SettingsScreen.StartEditing | src/components/SettingsScreen.tsx:196 | edit mode starts and nothing else changes |
| Settings.SettingsScreen.SetForm | src/components/SettingsScreen.tsx:240-302 | typing changes only the form; the loading and saving flags stay |
| Settings.SettingsScreen.SaveProfile | src/components/SettingsScreen.tsx:92-114 | the update request is sent; success replaces the user, passes it to `updateUser` and leaves edit mode; failure keeps user and edit mode and sets the error; `isSaving` ends false |
| Settings.SettingsScreen.CancelEdit | src/components/SettingsScreen.tsx:116-127 | the form is reset from the user when there is one; edit mode ends and the error clears; the loading flag stays |
| Profile.GetStatusText | src/components/ProfileScreen.tsx:133-144 | the three upper-case statuses get their labels; any other status is shown unchanged |
| Profile.ProfileScreen.constructor | src/components/ProfileScreen.tsx:39-51 | the screen starts loading with no user and an empty form |
| Profile.ProfileScreen.Statistics | src/components/ProfileScreen.tsx:347-370 | the cards show the number of sessions with status 'IN_PROGRESS', 'COMPLETED' and 'ABANDONED'; the three add up to at most the number of sessions |
| Profile.ProfileScreen.Recent | src/components/ProfileScreen.tsx:394 | the recent list is the first min(3, n) sessions, in order |
| Profile.ProfileScreen.LoadProfileData | src/components/ProfileScreen.tsx:59-76 | success sets the user and the form's username and email; failure sets the error; loading ends false |
| Profile.ProfileScreen.LoadSessions | src/components/ProfileScreen.tsx:78-85 | the first 50 sessions are asked for; success shows `data`, or none; failure changes nothing and shows no error |
| Profile.ProfileScreen.StartEditing | src/components/ProfileScreen.tsx:208 | edit mode starts and nothing else changes |
| Profile.ProfileScreen.SetForm | src/components/ProfileScreen.tsx:242-255 | typing changes only the form; the loading flag stays |
| Profile.ProfileScreen.SaveProfile | src/components/ProfileScreen.tsx:87-107 | the form is sent unchanged; success replaces the user, passes it to `updateUser` and leaves edit mode; failure stays in edit mode and sets the error |
| Profile.ProfileScreen.CancelEdit | src/components/ProfileScreen.tsx:109-118 | username and email are restored from the user when there is one; edit mode ends and the error clears; the loading flag stays |
| ChangePassword.ValidateSpec | src/components/ChangePasswordDialog.tsx:37-56 | the checks run in order and the first failure decides: any empty field, then a new password under 6 UTF-16 units, then a mismatch with the confirmation, then equality with the current one; the password passes iff none applies |
| ChangePassword.ShortPasswordExample | src/components/ChangePasswordDialog.tsx:43-46 | a 5-character new password is rejected as too short and a 6-character one passes |
| ChangePassword.ChangePasswordDialog.constructor | src/components/ChangePasswordDialog.tsx:25-30 | the dialog starts with empty fields, no error, no success, not loading |
| ChangePassword.ChangePasswordDialog.SetFields | src/components/ChangePasswordDialog.tsx:132-158 | typing changes only the fields |
| ChangePassword.ChangePasswordDialog.HandleSubmit | src/components/ChangePasswordDialog.tsx:32-82 | a failed check sets its message and sends nothing; otherwise the change is requested with the current and new password; success sets `success`, clears the fields and schedules the close after 2000 ms; failure keeps the fields and sets the error; loading ends false once sent |
| ChangePassword.ChangePasswordDialog.CloseTimerFired | src/components/ChangePasswordDialog.tsx:71-74 | the dialog is told to close and `success` clears |
| ChangePassword.ChangePasswordDialog.HandleCancel | src/components/ChangePasswordDialog.tsx:84-91 | the fields, error and success are cleared, then the dialog is told to close |
| Login.CredentialExamples | src/components/LoginScreen.tsx:28-41 | admin/admin and any user with 'password' are accepted; other passwords and untrimmed names are not; a white-space password counts as an empty field |
| Login.LoginScreen.constructor | src/components/LoginScreen.tsx:19-22 | the screen starts with empty fields, no error, not loading |
| Login.LoginScreen.SetFields | src/components/LoginScreen.tsx:77-94 | typing changes only the fields |
| Login.LoginScreen.HandleSubmit | src/components/LoginScreen.tsx:24-36 | the error is cleared first; a blank field sets the fill-all-fields error and nothing starts; otherwise loading starts and the check is scheduled after 1000 ms with the values as typed |
| Login.LoginScreen.CheckFired | src/components/LoginScreen.tsx:36-47 | accepted credentials go to `onLogin` unchanged; rejected ones set the wrong-credentials error and end loading |

## Left out

- JSX rendering, styles, icons, the dialog and navigation components, the start screen, routing and page wiring, and the one-call service wrappers: they hold no decision logic.
- `apiGet`, `apiPost`, `apiPatch` and `apiDelete` (src/lib/api-client.ts:220-264) are not modelled: they only build the `RequestInit`, and `URLSearchParams` encoding is a browser API. A screen's request is recorded in its log by endpoint and arguments.
- `apiDownload`'s `Blob`, object URL and anchor click, the clipboard write and `window.confirm` are browser APIs: the download, the clipboard text and the confirmation are an effect or a parameter.
- `fetch`, `AbortController` and the 30-second timer: a response is an abstract record of status, content type, body text and the parse result, and a timeout is a rejected `fetch` with an `AbortError`.
- `JSON.parse` is an oracle: the parse result is part of the response, and the restore takes the parser as a parameter. `Json.ParseUserRecord` is a concrete parser for the canonical record only.
- Numbers are integers: the model has no fractions, no exponents and no `NaN` arithmetic beyond `parseInt` failing.
- `Js.Prefix` models `slice(0, 8)` on code points, not on UTF-16 units: the two differ only for ids with characters outside the Basic Multilingual Plane.
- The text of a JavaScript TypeError depends on the engine: the model uses one fixed message (`Js.TypeError`).
- `console.log` and `console.error`, and `toLocaleString`/`toLocaleDateString` formatting.
- Overlapping async handlers and React state batching: each handler runs as one transaction on the reply it is given. The two exceptions are the chat send, which is split into the part before the request and the part after it, and the login check, which runs when its timer fires.
- The in-flight id fields `downloadingResumeId`, `deletingSessionId` and `completingSessionId` of the sessions screen: they only disable buttons while a request is pending, which a one-transaction handler never shows.
- A list request that resolves with `undefined` (a 204 reply) is not modelled: the screens would raise a TypeError on it.
- `updateUser` comes from a hook that is not part of this model; it is recorded as a callback.
- Sessions.SessionsScreen.CompleteSession: its contract states the refreshed list only when the sessions reply succeeds; the other outcomes are those of `LoadData`, which it calls.
- ApiClient.ApiFetch: its contract states the request and the rejected-`fetch` outcome; the outcome for a response is stated by `ResponseOutcomes`, `OutcomeByStatus` and the envelope lemmas.
