# Survey field client: recording session, API client, storage and sign-in

A Dafny model of the logic in the browser client of a field-survey system.
An interviewer ("agent") signs in, records an interview with the microphone
while the position is tracked, and finishes the session. The model covers
five pieces of that client:

- **The recording-session controller** (`components/recording-session.tsx`),
  modelled as the class `Capture.RecordingSession`:
  - the recorder state (inactive / recording / paused) and the `isRecording` and `isPaused` flags;
  - the one-second duration counter and the `canFinish` threshold;
  - the buffer of audio chunks waiting for upload;
  - the finish sequence and the unmount cleanup;
  - `formatTime`.

  Every browser event is a method: the microphone answer, a position update, a
  data event, a tick, the pause button, the finish button, unmounting. What the
  browser or the server answers is a parameter. The field `trace` lists the
  effects on the outside world in order: recorder started, paused or stopped;
  timer started or cleared; tracks stopped; position requested; requests sent;
  completion signalled. Ordering promises are stated over it.
- **The upload pipeline with overlapping uploads** (`UploadPipeline`): the
  same data handler when a new chunk arrives while an earlier upload is still
  pending. It carries the one finding below.
- **The REST client** (`lib/api-client.ts`):
  - the class `Api.ApiClient` with its bearer token;
  - pure functions for how a response becomes a value or an
    `ApiError {message, status}`, how exceptions are normalised, which headers
    are sent, and how query strings are built;
  - the one rejection that is not an `ApiError`: `request` and `uploadAudio`
    return `response.json()` for a JSON-typed 2xx without awaiting it, so a
    body that fails to parse rejects after the `catch` has been left, with the
    bare SyntaxError and no status (`Api.Rejection.Unparsable`).

  The query strings follow the application/x-www-form-urlencoded serializer of
  the WHATWG URL Standard. Its parser is the partner for the round-trip lemmas.
- **Client storage** (`lib/storage.ts`): the class `ClientStorage.Storage`, a
  map standing for localStorage, with the guard for the case of no window.
- **Sign-in state**:
  - the root page (`app/page.tsx`): the class `HomePage.Home` and the routing function `HomePage.Route`;
  - the `useAuth` hook (`hooks/use-auth.ts`): the class `Auth.AuthHook`.

  Lemmas pin down where the two disagree.

JavaScript values are the datatype `JsValue.Value`, with JavaScript truthiness,
`||`, property reads that throw on null or undefined, and `String()`. JSON
parsing is an oracle parameter `parse: string -> ParseResult`. A fetch is a
`Reply` parameter: a response with status, Content-Type and body text, or the
exception fetch threw.

Where the application's design description and the code differ, the model
follows the code:

- Pausing does not stop the duration timer, so the duration keeps growing while paused.
- Finishing has no explicit flush of the buffered audio. Stopping the
  recorder makes it deliver one final data event. That event is a separate
  `DataAvailable`, which uploads the buffer together with the last piece
  (`Capture.FinalDataEventFlushes`).
- Finishing keeps no cached position. It asks `getCurrentPosition` once and
  gives it no error callback, so with no fix it waits forever with the loading
  screen up (`Capture.FinishWithoutPositionHangs`).
- There is no retry with lower accuracy.
- Unmounting does not clear the position watch and does not call `stop()` on
  the recorder. It stops the microphone tracks, and with every track ended the
  browser stops the recorder itself and delivers a final data event, again a
  separate `DataAvailable`.
- The completion request carries latitude, longitude and accuracy only.

## Model

| member | source | states |
|---|---|---|
| Capture.RecordingSession.constructor | components/recording-session.tsx:23-30 | the state as mounted: not recording, not paused, duration 0, loading, no error, and `canFinish` already equal to `0 >= min_duration_sec` |
| Capture.RecordingSession.BeginInitialization | components/recording-session.tsx:42-67 | a stored non-empty `auth_token` is installed in the API client (otherwise the client token is unchanged), then the position watch starts; nothing else changes |
| Capture.RecordingSession.MicrophoneAnswered | components/recording-session.tsx:70-101 | with a stream, an inactive recorder exists and the auto-start condition holds; on a rejection the error is the exception's message, or the fixed initialisation message for non-Error values; loading ends either way |
| Capture.RecordingSession.PositionUpdate | components/recording-session.tsx:49-60 | each watch position sends exactly one location request for this session with the current token; a failure changes no session state |
| Capture.RecordingSession.WatchFailed | components/recording-session.tsx:62-65 | a watch error only sets the geolocation error message; recording, timer and buffer are untouched |
| Capture.RecordingSession.StartRecording | components/recording-session.tsx:124-134 | acts only on an inactive recorder: it is then recording, not paused, the timer runs, and the trace gains start then timer; otherwise nothing changes |
| Capture.RecordingSession.AutoStartEffect | components/recording-session.tsx:113-117 | starts recording exactly when loading is off, a recorder exists and it is not recording |
| Capture.RecordingSession.Tick | components/recording-session.tsx:130-132 | duration grows by exactly one whether or not paused; `canFinish == (duration >= min)` holds afterwards and, once true, stays true |
| Capture.RecordingSession.TogglePause | components/recording-session.tsx:136-146 | `isPaused` flips, the recorder pauses or resumes to match, and the timer and duration are untouched |
| Capture.RecordingSession.DataAvailable | components/recording-session.tsx:78-94 | an empty chunk changes nothing and sends nothing; otherwise the upload carries the old buffer plus the chunk, in order, and the buffer is empty after success and keeps all of it after failure; the ghost ledger `uploaded + chunks == emitted` is kept |
| Capture.RecordingSession.FinishRecording | components/recording-session.tsx:148-172 | the recorder is stopped only if active; the timer and tracks are released before the position request and the completion request; completion is signalled iff a fix arrived and completeSession resolved; on failure the error is `err.message` or the fixed message and auto-start is due again; without a fix loading stays on |
| Capture.RecordingSession.Release | components/recording-session.tsx:151-162 | afterwards the recorder is inactive, not recording, the timer is off and the tracks are stopped; the trace gains `Releases(...)` |
| Capture.RecordingSession.Complete | components/recording-session.tsx:164-171 | exactly one completion request; `onComplete` follows iff it resolved; otherwise the error is `message \|\| fallback`; loading ends |
| Capture.RecordingSession.Unmount | components/recording-session.tsx:105-109 | clears the timer and stops the tracks; the recorder state and everything else are unchanged |
| Capture.Releases | components/recording-session.tsx:151-162 | the release effects end with the position request and contain no request and no completion signal |
| Capture.FinishReleasesBeforeSending | components/recording-session.tsx:151-164 | in what finishing appends, every release precedes every request sent |
| Capture.ErrorText | components/recording-session.tsx:97 | an Error's own message, and the fallback for anything that is not an Error |
| Capture.FormatTime | components/recording-session.tsx:174-178 | the display is a numeral, a colon and a two-digit field |
| Capture.FormatTimeRoundTrip | components/recording-session.tsx:174-178 | `m:ss` reads back as the same number of seconds: `60*m + ss == s` |
| Capture.SecondsField | components/recording-session.tsx:176-177 | the seconds field is two digits whose value is `s mod 60` |
| Capture.PausedTimeCounts | components/recording-session.tsx:124-146 | started, paused, then one tick: duration 1, still paused and recording |
| Capture.FailedChunkIsResent | components/recording-session.tsx:78-94 | after a failed upload of `a`, the next upload carries `[a, b]`, and after its success the buffer is empty |
| Capture.FinalDataEventFlushes | components/recording-session.tsx:78-94 | a piece whose upload failed is still buffered at finish; the data event after the stop uploads `[a, last]` and empties the buffer |
| Capture.FinishWithoutPositionHangs | components/recording-session.tsx:159-162 | with no position fix: not completed, still loading, tracks and timer released |
| UploadPipeline.Emitted | components/recording-session.tsx:79-84 | a data event appends the next chunk to the buffer and puts a snapshot of the whole buffer in flight |
| UploadPipeline.AsWrittenLosesChunk | components/recording-session.tsx:86-88 | as written, chunk 1 of the two-chunk overlap is lost and never delivered, whatever happens afterwards |
| UploadPipeline.LostForever | components/recording-session.tsx:86-91 | as written, a chunk that is neither delivered, buffered nor in flight stays so |
| UploadPipeline.CorrectedStepKeeps | components/recording-session.tsx:86-91 | each step of the corrected pipeline keeps every emitted chunk delivered or buffered |
| UploadPipeline.CorrectedRunKeeps | components/recording-session.tsx:86-91 | the same for every sequence of steps from a state without loss |
| UploadPipeline.CorrectedNeverLoses | components/recording-session.tsx:86-91 | the corrected pipeline loses no chunk under any interleaving |
| UploadPipeline.CorrectedKeepsOverlap | components/recording-session.tsx:86-91 | under the overlap that loses chunk 1 as written, the corrected pipeline keeps it buffered |
| UploadPipeline.AgreeWithoutOverlap | components/recording-session.tsx:86-88 | when the one upload in flight carries the whole buffer, corrected and written settlement agree |
| Api.ApiClient.constructor | lib/api-client.ts:10 | the token starts as null |
| Api.ApiClient.SetToken | lib/api-client.ts:12-14 | the token becomes the given value |
| Api.ApiClient.GetToken | lib/api-client.ts:16-18 | returns the current token |
| Api.ApiClient.ClearToken | lib/api-client.ts:20-22 | the token becomes null |
| Api.ApiClient.Request | lib/api-client.ts:24-129 | the request goes to base URL + endpoint with the merged headers and the token held before the call; the result is `RequestOutcome` of the reply, including the unnormalised SyntaxError of an unparsable JSON 2xx; the token becomes null iff the reply is a 401 |
| Api.ApiClient.Login | lib/api-client.ts:131-136 | POST to the login path through `request` |
| Api.ApiClient.Register | lib/api-client.ts:138-143 | POST to the register path through `request` |
| Api.ApiClient.GetSurveys | lib/api-client.ts:145-155 | GET of the surveys endpoint through `request` |
| Api.ApiClient.StartSession | lib/api-client.ts:157-170 | POST to the session start path through `request` |
| Api.ApiClient.UpdateLocation | lib/api-client.ts:172-177 | POST to `/api/sessions/<id>/location` through `request` |
| Api.ApiClient.UploadAudio | lib/api-client.ts:179-244 | POST of the audio form to `/api/sessions/<id>/audio` with the upload headers; the result is `UploadOutcome` of the reply, including the unnormalised SyntaxError of an unparsable JSON 2xx; the token becomes null iff a 401 |
| Api.DetailOrMessage | lib/api-client.ts:62-68 | the message read from a JSON error body is truthy or the fallback, and the fallback when the body does not parse |
| Api.ClassifyResponse | lib/api-client.ts:44-110 | inside the try of `request`: every non-2xx throws; every throw is an ApiError with the response's own status; only a 2xx returns a value; the body is handed on unparsed exactly for a JSON-typed 2xx other than 204 |
| Api.Normalize | lib/api-client.ts:111-128 | the catch rethrows an ApiError unchanged and gives everything else status 0 and a string message, the connection message for "Failed to fetch" |
| Api.RequestOutcome | lib/api-client.ts:44-128 | `request` resolves only on a 2xx, and rejects with the bare SyntaxError exactly for a JSON-typed 2xx other than 204 whose body does not parse |
| Api.ClassifyUploadResponse | lib/api-client.ts:198-228 | inside the try of `uploadAudio`: it throws exactly for a non-2xx, always an ApiError with the response's status; a JSON-typed 2xx hands its body on unparsed |
| Api.UploadOutcome | lib/api-client.ts:190-243 | `uploadAudio` resolves only on a 2xx, and rejects with the bare SyntaxError exactly for a JSON-typed 2xx whose body does not parse |
| Api.RequestHeaders | lib/api-client.ts:32-41 | every default header is present; `Authorization` is present iff the token is truthy or the caller sent one |
| Api.UploadHeaders | lib/api-client.ts:183-188 | the ngrok header, plus `Authorization` iff the token is truthy; never Content-Type |
| Api.SessionPath | lib/api-client.ts:173 | the session id fills the segment after `/api/sessions/`, followed by `/` and the action |
| Api.SurveysEndpoint | lib/api-client.ts:145-153 | the surveys path, extended by a query exactly when a non-empty session id is given |
| Api.SupervisorParams | lib/api-client.ts:253-257 | `status` first only when given, then always `limit`, 50 unless given |
| Api.SupervisorSessionsEndpoint | lib/api-client.ts:253-258 | the supervisor path and `?` always start the endpoint |
| Api.SurveyQuestionsEndpoint | lib/api-client.ts:261-266 | the questions path of the survey, extended by a query exactly when a non-empty session id is given |
| Api.ApiClient.CompleteSession | lib/api-client.ts:246-251 | POST to `/api/sessions/<id>/complete` through `request` |
| Api.ApiClient.GetSupervisorSessions | lib/api-client.ts:253-259 | GET of the supervisor listing endpoint through `request` |
| Api.ApiClient.GetSurveyQuestions | lib/api-client.ts:261-269 | GET of the questions endpoint through `request` |
| ApiClientProperties.TokenLifecycle | lib/api-client.ts:12-22 | getToken returns what setToken stored, and null after clearToken |
| ApiClientProperties.UnauthorizedRejects | lib/api-client.ts:54-60 | a 401 rejects with status 401 and the fixed message whatever the body or content type, in `request` and in `uploadAudio` |
| ApiClientProperties.JsonErrorMessage | lib/api-client.ts:62-68 | a non-2xx, non-401 JSON error object yields `detail`, else `message`, else `HTTP <status>` (upload: its fixed message), with the response's status |
| ApiClientProperties.UnreadableJsonErrorMessage | lib/api-client.ts:64-70 | a JSON error body that does not parse, or is null, leaves the fallback message |
| ApiClientProperties.TextErrorMessage | lib/api-client.ts:71-79 | a non-JSON error: HTML markers give the fixed HTML message; an empty body gives `HTTP <status>`; otherwise the message is the body's first 200 characters; uploads use their fixed message |
| ApiClientProperties.NoContentIsUndefined | lib/api-client.ts:86-88 | 204 resolves to undefined |
| ApiClientProperties.NonJsonSuccess | lib/api-client.ts:90-108 | a non-JSON 2xx: HTML is an error with the response status; otherwise the body is parsed, or the error quotes its first 100 characters |
| ApiClientProperties.JsonSuccess | lib/api-client.ts:110 | a JSON 2xx resolves to the parsed body; a parse failure rejects with the bare SyntaxError, which bypasses the catch and has no status |
| ApiClientProperties.UploadSuccess | lib/api-client.ts:223-228 | a 2xx upload resolves to the parsed JSON body or to `{}` when not JSON-typed; an unparsable JSON body rejects with the bare SyntaxError |
| ApiClientProperties.OutcomeStatus | lib/api-client.ts:54-128 | success only on 2xx; a rejection for a response is the bare SyntaxError exactly for an unparsable JSON 2xx body, and otherwise an ApiError with the response's status; likewise for uploads |
| ApiClientProperties.FetchFailureNormalized | lib/api-client.ts:111-128 | "Failed to fetch" becomes status 0 with the connection message; an object with a status passes through unchanged; anything else gets status 0 |
| ApiClientProperties.AuthorizationRule | lib/api-client.ts:39-41 | `Authorization: Bearer <token>` is added exactly when the token is truthy, in `request` and in `uploadAudio` |
| ApiClientProperties.BearerOfStringToken | lib/api-client.ts:40 | a non-empty string token gives exactly `Bearer ` + token |
| ApiClientProperties.CallerHeadersOverride | lib/api-client.ts:32-37 | caller headers override the defaults, unnamed defaults are kept, and no other header appears |
| ApiClientProperties.SurveysQuery | lib/api-client.ts:145-155 | `session_id` is in the query exactly when a non-empty id is given, and parses back to that id |
| ApiClientProperties.SurveyQuestionsQuery | lib/api-client.ts:261-269 | the same for the questions endpoint |
| ApiClientProperties.SupervisorQuery | lib/api-client.ts:253-259 | the query always ends with `limit` (50 unless given) and starts with `status` only when one is given; it parses back to these pairs and the limit reads back as the same number |
| ApiClientProperties.SessionPathInjective | lib/api-client.ts:173 | distinct session ids give distinct session endpoints |
| FormUrlEncoding.EncodeRoundTrip | lib/api-client.ts:148 | percent-decoding the form encoding of a string gives the string back |
| FormUrlEncoding.QueryRoundTrip | lib/api-client.ts:148-149 | parsing a serialized list of pairs gives the same pairs in the same order |
| FormUrlEncoding.DecodeUtf8OfUtf8 | lib/api-client.ts:148 | UTF-8 decoding inverts the UTF-8 encoding used by the serializer |
| Decimal.IntToStringRoundTrip | lib/api-client.ts:256 | the decimal text of `limit` parses back to the same integer |
| Decimal.IntToStringInjective | lib/api-client.ts:262 | distinct survey ids give distinct decimal texts |
| Decimal.DigitsValueOfNatToString | components/recording-session.tsx:177 | the decimal text of a natural number has that value |
| Text.IncludesIffOccurs | lib/api-client.ts:52 | `includes` holds exactly when the substring occurs at some index |
| Text.Take | lib/api-client.ts:77 | `substring(0, n)` is a prefix of length `min(n, length)` |
| Text.PadStart | components/recording-session.tsx:177 | `padStart` keeps the string as the suffix and fills in front up to the width |
| JsValue.ToStr | lib/api-client.ts:40 | `String()` of a number reads back as that number; only the empty string and arrays print as empty |
| JsValue.OrTruthy | lib/api-client.ts:67 | `a \|\| b` is truthy iff one operand is, and it is one of them |
| ClientStorage.ItemValue | app/page.tsx:15-17 | a getItem result is truthy iff a non-empty string is stored |
| ClientStorage.Read | lib/storage.ts:2-7 | a getter reads a value iff there is a window and the key is stored, and then the stored string |
| ClientStorage.Apply | lib/storage.ts:1-45 | without a window nothing changes; with one, a setter leaves its key present and a clear leaves it absent; no other key appears or disappears |
| ClientStorage.ReadAfterWrite | lib/storage.ts:2-12 | with a window, each getter reads `String()` of what its setter wrote last |
| ClientStorage.ReadAfterWriteString | lib/storage.ts:18-28 | a string written is read back unchanged, for all three keys |
| ClientStorage.ClearIsIdempotent | lib/storage.ts:13-17 | after a clear the getter reads null, and clearing twice is clearing once |
| ClientStorage.OtherKeysUnchanged | lib/storage.ts:1-45 | every call touches only its own key |
| ClientStorage.NoWindowIsInert | lib/storage.ts:3-6 | without a window every getter reads null and any sequence of calls changes nothing |
| ClientStorage.RoleOnlyWrittenBySetRole | lib/storage.ts:24-28 | after any calls, `user_role` holds what the last setRole wrote, or what it held before |
| ClientStorage.Storage.GetItem | app/page.tsx:15-16 | localStorage.getItem: the stored string, or null |
| ClientStorage.Storage.RemoveItem | app/page.tsx:30-31 | localStorage.removeItem removes exactly that key |
| ClientStorage.Storage.GetToken | lib/storage.ts:2-7 | reads `auth_token`, or null without a window |
| ClientStorage.Storage.SetToken | lib/storage.ts:8-12 | writes `auth_token`, or nothing without a window |
| ClientStorage.Storage.ClearToken | lib/storage.ts:13-17 | removes `auth_token`, or nothing without a window |
| ClientStorage.Storage.GetRole | lib/storage.ts:18-23 | reads `user_role`, or null without a window |
| ClientStorage.Storage.SetRole | lib/storage.ts:24-28 | writes `user_role`, or nothing without a window |
| ClientStorage.Storage.GetSessionId | lib/storage.ts:29-34 | reads `current_session_id`, or null without a window |
| ClientStorage.Storage.SetSessionId | lib/storage.ts:35-39 | writes `current_session_id`, or nothing without a window |
| ClientStorage.Storage.ClearSessionId | lib/storage.ts:40-44 | removes `current_session_id`, or nothing without a window |
| HomePage.Remembered | app/page.tsx:15-17 | `token && userRole` on the two getItem results |
| HomePage.Route | app/page.tsx:36-52 | spinner iff loading; login iff not loading and signed out; supervisor dashboard iff signed in as SUPERVISOR or ADMIN; agent dashboard for every other role, including none |
| HomePage.LogoutForgets | app/page.tsx:29-31 | after the page's logout no remembered login is left |
| HomePage.Home.constructor | app/page.tsx:10-12 | signed out, no role, loading, so the spinner shows |
| HomePage.Home.StartupEffect | app/page.tsx:14-22 | signed in with the stored role iff both token and role are stored non-empty; loading ends either way |
| HomePage.Home.LoginSucceeded | app/page.tsx:24-27 | signed in with the given role, and the dashboard shown is the one for that role |
| HomePage.Home.Logout | app/page.tsx:29-34 | removes `auth_token` and `user_role` and no other key; signed out with no role; the login page shows |
| HomePage.RememberedSupervisorStartsOnDashboard | app/page.tsx:14-49 | a remembered supervisor starts on the supervisor dashboard |
| HomePage.LogoutThenRestartShowsLogin | app/page.tsx:14-34 | after logging out, a fresh start shows the login page |
| Auth.CredentialsOf | hooks/use-auth.ts:25-26 | the token is `access_token` if truthy, else `token`, and truthy iff one of them is; the role is the response's if truthy, else "AGENT"; reading a null or undefined response throws |
| Auth.HookRemembers | hooks/use-auth.ts:13-15 | `if (token)` on what the helper reads |
| Auth.StoredRole | hooks/use-auth.ts:14-17 | the stored role string when there is a window and one is stored, else null |
| Auth.PageRememberedImpliesHook | hooks/use-auth.ts:12-19 | whenever the page signs in at startup, so does the hook |
| Auth.HookAndPageDisagree | hooks/use-auth.ts:15 | a token without a role signs the hook in (with role null) but not the page |
| Auth.LogoutKeepsRole | hooks/use-auth.ts:38-44 | the double clearToken equals one; the token is gone but `user_role` is kept |
| Auth.TokenlessLoginIsRemembered | hooks/use-auth.ts:25-29 | a response with neither token field stores the string "undefined", which the next start takes for a token |
| Auth.AuthHook.constructor | hooks/use-auth.ts:8-10 | signed out, role null, loading |
| Auth.AuthHook.StartupEffect | hooks/use-auth.ts:12-21 | a stored non-empty token signs in, goes to the API client, and the role is the stored one or null; loading ends either way |
| Auth.AuthHook.Login | hooks/use-auth.ts:23-36 | on a response the credentials go to the client, to `auth_token` and `user_role`, sign in and are returned; a rejected request (an ApiError or the bare SyntaxError) or an unreadable response rejects and changes no hook or storage state |
| Auth.AuthHook.Logout | hooks/use-auth.ts:38-44 | clears the client token and `auth_token`; signed out with role null |
| Auth.TokenlessLoginSurvivesReload | hooks/use-auth.ts:23-36 | after such a login and a reload the hook is signed in with token "undefined" and role AGENT |

## Left out

- Browser devices (MediaRecorder, getUserMedia, geolocation, Blob, FormData) are events and parameters. Chunk bytes, blob types and the 10-second timeslice are not modelled. Coordinates are opaque reals that are never computed with.
- The status texts (`geoStatus`, `micStatus`, the `toFixed` accuracy text), console logging and all rendering are left out. They do not feed back into the logic.
- Capture.RecordingSession.DataAvailable: treats each data event as atomic, so no other event runs while an upload is pending. `UploadPipeline` models the overlapping case separately.
- Capture.RecordingSession.StartRecording: assumes MediaRecorder.start succeeds. It may also be called after a failed finish on a stream whose tracks were stopped, and what the browser does then is outside the model.
- A failure of `new MediaRecorder(stream)` is not modelled. Neither is a change of `sessionId` that would re-run the initialisation effect, because the session id is fixed per instance.
- React scheduling: effects are explicit method calls. The environment calls `AutoStartEffect` after `loading` changes, and `Tick` runs the `canFinish` effect right after the duration changes.
- JSON parsing is an oracle. Request bodies (`JSON.stringify` of credentials, coordinates and the timestamp) are a marker `JsonBody`, not their text.
- Numbers in `Value` are integers. Non-integral numbers, NaN and their `String()` forms are not modelled.
- Header names are compared exactly. fetch's case-insensitive header merging is not modelled.
- Strings are sequences of Unicode scalar values, so the lone surrogates that the URL serializer would replace with U+FFFD cannot occur.
- Text.Take: counts Unicode scalar values, whereas JavaScript's `substring` counts UTF-16 code units, so for text outside the Basic Multilingual Plane the prefix may differ in length.
- JsValue.Get: a string's `length` is its number of scalar values, not of UTF-16 code units.
- ApiClientProperties.TextErrorMessage: the 200-character bound on the quoted body is in scalar values, not UTF-16 code units.
- ApiClientProperties.NonJsonSuccess: the 100-character bound on the quoted body is in scalar values, not UTF-16 code units.
- Capture.RecordingSession.Unmount: the recorder stopping itself once its tracks have ended is not reflected in `recorder`; its final data event is a later `DataAvailable` call.
- Reading a response body can fail on the stream itself, and that is not modelled. Only parse failures are.
- The CORS mode, the ngrok header's effect and the proxy route are I/O, and so is the base URL beyond being a constant prefix.
- The other components (dashboards, login page, preparation modal) are only callers of this core.

## Findings

| source | as written | input that shows it | evidently intended | confidence | as-written member | corrected member |
|---|---|---|---|---|---|---|
| components/recording-session.tsx:86-88 | a successful upload sets the buffer to `[]`, including chunks pushed after that upload's blob was built | chunk 0 is emitted and its upload starts; chunk 1 is emitted and the upload of `[0, 1]` starts; the first upload succeeds, then the second fails. Chunk 1 is then neither delivered nor buffered nor in flight, so it is never delivered | remove from the buffer only the chunks that the successful upload carried | medium, not executed | UploadPipeline.AsWrittenLosesChunk | UploadPipeline.CorrectedNeverLoses |

`UploadPipeline.AgreeWithoutOverlap` shows that, when uploads do not overlap,
the corrected settlement and the written one are the same. That is why
`Capture.RecordingSession.DataAvailable` can empty the buffer on success
exactly as the code does.
