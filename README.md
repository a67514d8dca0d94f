# MFY field-worker app: the decision logic of its client core

This project models in Dafny the parts of the mobile field-worker app that
make decisions. The rest of the app is screen layout and calls into the
platform. Five pieces are modelled:

- **Location reporting** (`location.dfy`, module `Location`). This covers the
  gate that decides whether a location sample is posted and what it carries:
  a token is required, and routine samples are sent only from 09:00 to
  before 21:00. It also covers the background task callback, the
  foreground-then-background permission requests, and starting, stopping and
  querying the OS's location updates. The OS flag is a field of the class
  `BackgroundTracking`.
- **The REST client** (`api.ts` → `api.dfy`, module `Api`). This covers the
  request headers, including the `Authorization: Bearer` credential of
  section 2.1 of RFC 6750. It covers the URL of `api.get`, the body choice of
  `post`/`put`/`patch`, and how `request` and `upload` map an HTTP outcome
  to the `ApiResponse` record. That mapping has five cases: 204 No Content
  (section 15.3.5 of RFC 9110), 401 Unauthorized (section 15.5.2 of
  RFC 9110, which signs out), other failures, success, and a thrown error
  (status 0).
- **The auth store** (`storage.dfy`, module `Storage`). The class
  `AuthStorage` holds one key-value map, the typed and generic accessors
  over it, and `clear`, which removes exactly the three auth keys.
- **The login screen** (`login.dfy`, module `Login`). This covers the order
  of the checks before the login call, the message shown when the call
  fails, the storage writes when it succeeds, and the input handlers that
  clear the error.
- **Ranking helpers** (`rank.dfy`, module `Rank`). These are the avatar URL
  rule, the medal colours and icons, the rank badge, the "me" marker and the
  placeholder for an unknown rank.

Shared pieces: `js.dfy` (module `Js`) models the JavaScript values the app
reads from parsed JSON. It gives their truthiness, `||`, `??`, property
reads, `Object.values` and `flat()`. `navigation.dfy` (module `Navigation`)
keeps the current route that `router.replace` sets. `wrappers.dfy` defines
`Option`.

The platform is passed in as parameters ("oracles"). These are the result of
`fetch` and of `response.json()`, the permission answers, the position
read, the battery read, the local hour, the push token, and whether an OS
query or call rejects.

`app/_layout.tsx:17` calls `locationService.syncQueue()`, which
`app/services/locationService.ts` does not define: `sendLocationToServer`
posts one sample or drops it, and no queue of samples is modelled.

## Model

| member | source | states |
|---|---|---|
| Storage.Read | app/storage.ts:38-40 | `get(key)` yields a value exactly when the key is stored, and then the stored value |
| Storage.Write | app/storage.ts:42-44 | `set(k, v)` makes `k` read back `v` and leaves every other key as it was |
| Storage.Cleared | app/storage.ts:47-49 | `clear` removes exactly `auth_token`, `auth_user` and `auth_worker`; every other key, such as the onboarding flag, keeps its value |
| Storage.TokenOf | app/storage.ts:13-15 | the token read is null exactly when no token is stored, and otherwise is the stored text |
| Storage.Decode | app/storage.ts:22-25 | a user or worker read is null for a missing or empty string, and is the stored value for JSON written by the typed setter |
| Storage.AuthStorage.SetToken | app/storage.ts:9-11 | writes the token slot and nothing else |
| Storage.AuthStorage.GetToken | app/storage.ts:13-15 | resolves to the token held in the map |
| Storage.AuthStorage.SetUser | app/storage.ts:18-20 | writes the user's JSON under `auth_user` and nothing else |
| Storage.AuthStorage.GetUser | app/storage.ts:22-25 | resolves to the decoded `auth_user` entry |
| Storage.AuthStorage.SetWorker | app/storage.ts:28-30 | writes the worker's JSON under `auth_worker` and nothing else |
| Storage.AuthStorage.GetWorker | app/storage.ts:32-35 | resolves to the decoded `auth_worker` entry |
| Storage.AuthStorage.Get | app/storage.ts:38-40 | resolves to the entry under any key |
| Storage.AuthStorage.Set | app/storage.ts:42-44 | writes a text under any key and nothing else |
| Storage.AuthStorage.Clear | app/storage.ts:47-49 | the map afterwards is the old map without the three auth keys |
| Storage.TokenRoundTrip | app/storage.ts:9-15 | `getToken` after `setToken(t)` resolves to `t` |
| Storage.ProfileRoundTrip | app/storage.ts:18-35 | `getUser` after `setUser(u)` resolves to `u`, and `getWorker` after `setWorker(w)` to `w`; neither write touches the other slot |
| Storage.GenericGetSeesToken | app/storage.ts:13-40 | the generic `get("auth_token")` and `getToken` read the same entry |
| Storage.SignedOutAfterClear | app/storage.ts:47-49 | after `clear`, `getToken`, `getUser` and `getWorker` all resolve to null, and any other key keeps its value |
| Api.Headers | app/api.ts:30-38 | the caller's headers override the JSON defaults; `Authorization: Bearer <token>` is present whenever a token is stored and overrides a caller's `Authorization`; with no token the caller's value, if any, is kept |
| Api.AuthorizationIffToken | app/api.ts:36-38 | with no caller `Authorization`, the header is present exactly when a token is stored |
| Api.UploadHeaders | app/api.ts:134-140 | an upload sends `Accept` and, exactly when a token is stored, the bearer credential; it never sends `Content-Type` |
| Api.Url | app/api.ts:99-104 | without params the URL is the endpoint itself; with params (even empty ones) it is the endpoint, `?` and the query |
| Api.UrlSplits | app/api.ts:100-103 | splitting the URL at its first `?` gives back the endpoint and the query, for an endpoint without `?` |
| Api.BodyFor | app/api.ts:108-127 | a falsy body is sent as no body; any other body is sent as its JSON |
| Api.Classify | app/api.ts:40-95 | status 0 exactly for a thrown `fetch` or an unreadable non-204 body, otherwise the response's status; success exactly for a readable 2xx; sign-out exactly for a 401 with a parsed body; a success has null `errors`, and data unless it is a 204; every failure has null data and a non-empty message; `errors` appear only on failures other than 401 |
| Api.NoContentIgnoresBody | app/api.ts:46-54 | a 204 gives success with null data, message and errors and status 204, whatever the body |
| Api.UnauthorizedSignsOut | app/api.ts:58-67 | a 401 signs out and fails with status 401, null errors, and the body's message or the session default |
| Api.ErrorsPassedOn | app/api.ts:70-78 | any other failure echoes the status and passes `body.errors` on, or null |
| Api.DataFallsBackToBody | app/api.ts:80-86 | a successful response carries `body.data`, or the whole body when that is null or undefined |
| Api.ClassifyUpload | app/api.ts:142-188 | an upload parses the body first (there is no 204 case); a 401 signs out without reading the body's message; otherwise it matches `request` |
| Api.UploadAgreesWithRequest | app/api.ts:163-179 | for readable responses other than 204 and 401, `upload` and `request` agree on success, status, data and errors |
| Api.UploadHasNoContentCase | app/api.ts:149 | a body-less 204 is a success for `request` and status 0 for `upload` |
| Api.Request | app/api.ts:24-96 | sends to the base URL plus the endpoint with the built headers; resolves with the classified response; on a sign-out it clears the auth keys and routes to `/login`, and otherwise leaves the store and the route alone |
| Api.Get | app/api.ts:99-106 | a GET of the built URL with no body and the default headers |
| Api.SendJson | app/api.ts:108-127 | POST, PUT or PATCH of the endpoint with the body choice of `BodyFor` and default headers |
| Api.Delete | app/api.ts:129-131 | a DELETE of the endpoint with no body and the default headers |
| Api.Upload | app/api.ts:133-189 | a multipart POST with the upload headers, classified as an upload |
| Location.SendLocationToServer | app/services/locationService.ts:20-54 | a sample is posted exactly when a token is present and it is real-time or the hour is in [9, 21); without a token it is dropped for that reason first; the post carries the given coordinates and `is_real_time`, a battery level of 0 when the read fails, and the bearer token |
| Location.WindowExamples | app/services/locationService.ts:28-31 | a routine sample is posted at 10:00 and dropped at 23:00, and a real-time one is posted at 23:00 |
| Location.TokenCheckedFirst | app/services/locationService.ts:25-31 | without a token the outcome does not depend on the hour |
| Location.OnBackgroundTask | app/services/locationService.ts:9-18 | nothing is sent on an error, on missing data or on no locations; otherwise only the first location is sent, as a routine sample |
| Location.RequestPermissions | app/services/locationService.ts:57-69 | foreground permission is asked first, and background only after foreground is granted; the result is true exactly when both are granted, and false on a rejection |
| Location.StartTracking | app/services/locationService.ts:71-97 | the result is true only with permission, a defined task and running updates; it is false without permission or task, and false without a start call when the query rejects; with permission, the task and an answering query, updates not yet running are started, and the result is true exactly when that start succeeds; already-running updates give true |
| Location.StartIsIdempotent | app/services/locationService.ts:78-80 | a second start after a successful one returns true without starting the updates again |
| Location.BackgroundTracking.Start | app/services/locationService.ts:71-97 | the result, the OS flag and the count of start calls follow `StartTracking` |
| Location.BackgroundTracking.Stop | app/services/locationService.ts:99-107 | running updates are stopped unless a call rejects; the start count is unchanged |
| Location.BackgroundTracking.IsTracking | app/services/locationService.ts:109-115 | the OS flag, or false when the query rejects |
| Location.SendRealTimeLocation | app/services/locationService.ts:117-131 | the result is true exactly when both permissions are granted and the position read succeeds; then the position is sent as a real-time sample, and the result is true even when that send is dropped for lack of a token |
| Login.Validate | app/login.tsx:79-97 | the push token is checked first; then both fields empty gives "Email va parolni kiriting!"; then only the email or only the password empty gives its own message; the call is made exactly when all three are non-empty |
| Login.FailureMessage | app/login.tsx:103-109 | without `errors` the shown message is the server's message or "Email yoki parol noto'g'ri!", never empty |
| Js.FirstOfFlat | app/login.tsx:105 | the first element of `flat()` is the first item of the first element that is not an empty array |
| Login.FirstFieldErrorShown | app/login.tsx:104-106 | with field-keyed `errors`, the shown message is the first message of the first field that has one |
| Login.SuccessWrites | app/login.tsx:114-122 | the token, user and worker are each written exactly when the response data carries them |
| Login.Stored | app/login.tsx:114-122 | after the writes each auth slot holds the returned value or its old value, and no other key changes |
| Login.SignedInWithReturnedToken | app/login.tsx:114-116 | a login that returns a token leaves that token as the one `getToken` reads |
| Login.ClearOnEditAsWritten | app/login.tsx:164-166 | editing clears a truthy error and leaves a falsy one as it is |
| Login.EmptyErrorListsDefeatEdit | app/login.tsx:164-166 | a failed login whose `errors` object lists nothing shows `undefined`, which keeps the error box up, and editing leaves it up |
| Login.ClearOnEdit | app/login.tsx:164-166 | editing hides any error that is shown |
| Login.LoginScreen.EditEmail | app/login.tsx:164-167 | sets the email and, with the corrected handler `ClearOnEdit`, hides the shown error; nothing else changes |
| Login.LoginScreen.EditPassword | app/login.tsx:183-186 | sets the password and, with the corrected handler `ClearOnEdit`, hides the shown error; nothing else changes |
| Login.LoginScreen.HandleLogin | app/login.tsx:76-126 | a request is sent exactly when validation passes. Without a push token the screen shows an alert and changes nothing else. A failed check shows its message and stores nothing. A failed call shows the failure message and stores nothing beyond a 401's sign-out. A successful call writes what the response carries and goes to the tabs. `loading` ends false after any call |
| Rank.ImageUrl | app/rank.tsx:36-40 | no URL for a missing or empty image; every URL produced starts with "http"; an "http" image is kept as it is, and any other becomes the base URL + "/storage/" + the image |
| Rank.ImageUrlIdempotent | app/rank.tsx:36-40 | resolving a resolved URL again changes nothing |
| Rank.MedalColor | app/rank.tsx:42-47 | gold, silver and bronze for ranks 1, 2 and 3, and "#5a7fa5" for exactly the other ranks |
| Rank.PodiumColoursDistinct | app/rank.tsx:43-45 | the three podium colours differ |
| Rank.MedalIcon | app/rank.tsx:49-52 | "medal-outline" exactly for rank <= 3, and "ribbon-outline" otherwise |
| Rank.RankBadge | app/rank.tsx:92-103 | up to rank 3 the badge is the medal colour with "20" appended, behind a medal; otherwise it is "#1a2a40" with the number |
| Rank.AvatarFor | app/rank.tsx:106-115 | a photo exactly when there is an image, at the image's resolved URL; the person icon otherwise |
| Rank.IsMe | app/rank.tsx:86 | a row is "me" exactly when my_stats is present and its id equals the row's id |
| Rank.MyRankLabel | app/rank.tsx:140-151 | no header without my_stats; a null or 0 `my_rank` shows "—", and any other rank shows as it is |

## Left out

- `syncQueue`: `app/_layout.tsx:17` calls `locationService.syncQueue()`, but `app/services/locationService.ts` does not define it, so there is no sample queue or flush to model.
- Screen rendering, styles, the shake and fade animations, and the 4-second timer that clears the login error are rendering only.
- The push-notification glue is not modelled. A `location_request` notification only calls `sendRealTimeLocation`, which `Location.SendRealTimeLocation` models.
- The permission and GPS hook `app/hooks/useLocation.ts` is not part of this model.
- `fetch`, `response.json()`, `JSON.stringify`/`JSON.parse` and `URLSearchParams` are opaque. Their results are parameters, and `Storage.Item.Json(v)` stands for the JSON text of `v`.
- Api.QueryString: keys and values are joined verbatim. The percent-encoding of `URLSearchParams` and its coercion of non-string values are not modelled.
- Floating point is not modelled. Coordinates are an opaque type parameter. The battery reading is an integer oracle standing for `Math.round(level * 100)`.
- The clock becomes an `Hour` parameter. OS task scheduling, the 60-minute interval, the foreground-service options and concurrency between triggers are outside the model.
- `authApi.login` receives a third argument (the push token) that it ignores. The model sends only email and password.
- AsyncStorage is assumed never to fail. A failing read in `request` would reject before its `try`, and a failing `storage.clear()` would be caught as status 0. Neither is modelled.
- Storage.Decode: text written under `auth_user`/`auth_worker` through the generic `set` is reported as `Unparsed`. What `JSON.parse` makes of it, or whether it throws, is not modelled.
- Storage.AuthStorage.SetUser: `JSON.stringify(undefined)` yields no string. The model still stores `Json(Undefined)` for it.
- Login.LoginScreen.EditEmail: models the corrected handler `ClearOnEdit`, which hides any shown error. As written, `app/login.tsx:166` clears only a truthy error, so a shown `undefined` stays on screen; `Login.ClearOnEditAsWritten` models that, and the Findings row records it.
- Login.LoginScreen.EditPassword: models the corrected handler `ClearOnEdit` in the same way. As written, `app/login.tsx:185` clears only a truthy error.
- Login.SuccessWrites: a truthy token that is not a string is not written. The source hands it to `setItem`, whose handling of non-strings depends on the platform.
- Location.OnBackgroundTask: a `data` object without a `locations` field makes the callback throw a TypeError. The model treats it like missing data.
- Js: numbers are integers, and NaN is left out. A property read sees only an object's own members. Objects have distinct keys, in the order `Object.values` lists them; the JavaScript rule that integer-like keys come first is not modelled.
- Api.Headers: caller headers are a plain map of case-sensitive names. A `Headers` instance or an array of pairs is not modelled. Only the method, headers and body of `RequestInit` are kept.
- `getMedalIcon` is modelled, although the screen's badge draws a "medal" glyph and does not call it. The other API groups (`tasksApi`, `meetsApi`, logout, profile) are thin callers of the modelled methods and are left out.

## Findings

| source | as written | input that shows it | evidently intended | confidence | as-written member | corrected member |
|---|---|---|---|---|---|---|
| app/login.tsx:164-166 | the input handlers clear the error only when it is truthy, but the box is on screen whenever `error !== ""` | a failed login whose response has `errors: {}`: `Object.values(errors).flat()[0]` is `undefined`, the box shows, and typing in either field leaves it until the timer fires | editing either input hides any shown error | medium, not executed | Login.EmptyErrorListsDefeatEdit | Login.ClearOnEdit |
