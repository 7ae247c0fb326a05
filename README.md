# Kudos client: verified model of its session, token-refresh and list logic

This project models the client-side logic of a recognition ("kudos") web application. Employees sign in, send short appreciation messages to teammates from a weekly allowance, and see received kudos arrive live. The model covers four pieces:

- **API client** (`api.dfy`, module `Api`). A request interceptor attaches the stored access token as an `Authorization: Bearer <token>` header (section 2.1 of RFC 6750). A response interceptor answers a 401 Unauthorized (section 15.5.2 of RFC 9110) with at most one refresh of the access token and one replay of the original request. The browser's local storage is the class `Storage.TokenStore`. The request config is the class `Api.RequestConfig`, whose `_retry` marker and headers the interceptors change in place.
- **Session store** (`auth.dfy`, module `Auth`). The mount-time user load, login, logout and user refresh are methods of `Auth.AuthProvider`, a class holding `user` and `loading` and sharing the token store. The login error notice is chosen by a fixed precedence chain.
- **Dashboard** (`dashboard.dfy`, module `Dashboard`). The "new" flag on a received kudo decays once it is two minutes old. A realtime arrival is prepended to the list. Sent kudos are shown with the flag off. The Give-Kudos button's disable rule and the remaining-count label are modelled too. The page state that the handlers replace is the class `Dashboard.DashboardPage`.
- **Give-kudos form** (`givekudos.dfy`, module `GiveKudos`). The message is truncated to 500 code units. The submit guard blocks a missing recipient or a blank message. The request body is built from the trimmed message, and the form resets after success. Its error-notice precedence differs from login's.

Supporting modules:

- `wrappers.dfy`: `Option` and `Result`.
- `types.dfy`: the data-transfer records.
- `jstext.dfy`: JavaScript string truthiness and `String.prototype.trim`, with the exact set of code points it removes.
- `storage.dfy`: the token store.

Calls to the backend are not modelled. Each one's settled outcome (a `Result<T, ApiError>`) is an input to the method that awaits it. Time is an input too: the current instant, `now`, is an integer number of milliseconds. A kudo's `createdAt` is that instant already converted from the date string.

Four behaviours of the code that are easy to miss:

- A failure of the replayed request is not caught by the interceptor's `catch` (`lib/api.ts:93` returns the replay without awaiting it). A second 401 is therefore rejected unchanged and does not clear the tokens. Only a failed refresh exchange clears them (`Api.ApiClient.Send`).
- A failed `refreshUser` leaves the user as it was. It does not sign the session out (`contexts/AuthContext.tsx:148-154`).
- During login, a failure of the user fetch that follows a successful token exchange leaves both new tokens stored.
- On login, a body whose `non_field_errors` is an empty list makes the error notice `undefined`. This is modelled as `None`.

## Model

| member | source | states |
|---|---|---|
| `Storage.TokenStore.GetItem` | lib/api.ts:44 | a key's stored value, and `null` exactly when the key is missing |
| `Storage.TokenStore.SetItem` | lib/api.ts:89 | the key is bound to the value and every other entry is kept |
| `Storage.TokenStore.RemoveItem` | lib/api.ts:96-97 | the key is gone and every other entry is kept |
| `Storage.Cleared` | contexts/AuthContext.tsx:136-137 | neither token remains, every other entry is kept, and no key is added |
| `JsText.TrimStart` | components/GiveKudosModal.tsx:53 | the result is a suffix of the input that starts with a non-trimmable code unit, and everything removed is trimmable |
| `JsText.TrimEnd` | components/GiveKudosModal.tsx:53 | the result is a prefix of the input that ends with a non-trimmable code unit, and everything removed is trimmable |
| `JsText.Trim` | components/GiveKudosModal.tsx:62 | the trimmed text neither starts nor ends with a trimmable code unit |
| `JsText.TrimIsSlice` | components/GiveKudosModal.tsx:62 | the trimmed text is a contiguous slice of the input, and only trimmable code units lie outside it |
| `JsText.TrimEmptyIffBlank` | components/GiveKudosModal.tsx:53 | a message trims to "" if and only if every code unit in it is whitespace or a line terminator |
| `JsText.TrimIdempotent` | components/GiveKudosModal.tsx:62 | trimming an already trimmed message changes nothing |
| `Api.BearerCredentials` | lib/api.ts:47 | the header value is the scheme "Bearer " followed by exactly the token |
| `Api.BearerToken` | lib/api.ts:92 | the reading side of the header format written here (section 2.1 of RFC 6750), used by `BearerRoundTrip` and `WithAccessToken`: a header is read as bearer credentials exactly when it starts with "Bearer ", and the token read back rebuilds the header |
| `Api.BearerRoundTrip` | lib/api.ts:47 | reading back a header the client wrote yields the token that was stored |
| `Api.WithAccessToken` | lib/api.ts:44-48 | a present (non-empty) access token puts a bearer header carrying that token; otherwise the headers are untouched; other headers are always kept |
| `Api.TriggersRefresh` | lib/api.ts:69 | only an error response with status 401 can trigger a refresh, a transport failure never does, and a request already retried never does |
| `Api.ApiClient.InterceptRequest` | lib/api.ts:41-51 | the request's headers become the stored-token headers and `_retry` is unchanged |
| `Api.ApiClient.InterceptResponseError` | lib/api.ts:63-105 | handles a 401 on an unretried request: `_retry` is set first; with no refresh token, the store is unchanged, the window goes to "/" and the original error is rejected; a refresh posts the stored refresh token, then either overwrites only `access_token`, sets the bearer header and replays, or removes both tokens, goes to "/" and rejects the refresh error; anything else is rejected unchanged with no writes |
| `Api.ApiClient.Send` | lib/api.ts:63-105 | one call through the client: at most one refresh, and only for a 401 on an unretried request; a successful refresh replays once with `Bearer <new access>` and yields the replay's own outcome, a second 401 included, without clearing tokens; any refresh failure is not itself refreshed, and it clears both tokens and rejects with the refresh error |
| `Auth.LoginErrorMessage` | contexts/AuthContext.tsx:110-118 | precedence is `detail`, then `non_field_errors[0]`, then the network message when a non-empty error message came with no response, else "Invalid username or password"; it is undefined exactly when there is no detail and the field-error list is empty |
| `Auth.AuthProvider.constructor` | contexts/AuthContext.tsx:50-51 | no user, loading |
| `Auth.AuthProvider.LoadUser` | contexts/AuthContext.tsx:57-79 | fetches exactly when an access token is present; success sets the user; failure removes both tokens; without a token nothing changes; loading is false on every path |
| `Auth.AuthProvider.Login` | contexts/AuthContext.tsx:87-128 | returns true exactly when the exchange and the fetch succeed; a failed exchange leaves the store and user untouched; a successful exchange stores both tokens in order; success sets the user; a failure yields the precedence-chain message and never throws |
| `Auth.AuthProvider.Logout` | contexts/AuthContext.tsx:135-138 | both tokens are removed and the user is cleared, with no fetch |
| `Auth.AuthProvider.RefreshUser` | contexts/AuthContext.tsx:148-155 | success replaces the user; failure leaves it unchanged |
| `Dashboard.WithinWindow` | app/dashboard/page.tsx:62 | a kudo is inside the window exactly when it was created after the instant 120000 ms before now |
| `Dashboard.DecayOne` | app/dashboard/page.tsx:60-64 | the flag stays set only while the server flag is set and the kudo is under 120000 ms old; every other field is kept |
| `Dashboard.Decay` | app/dashboard/page.tsx:87-93 | the list keeps its length, and each position holds the decayed kudo from the same position |
| `Dashboard.Arrive` | app/dashboard/page.tsx:102 | the pushed kudo, marked new, comes first, and the previous list follows unchanged |
| `Dashboard.DisplaySent` | app/dashboard/page.tsx:288 | every sent kudo is shown with the flag off, whatever the payload says, and otherwise unchanged |
| `Dashboard.GiveKudosDisabled` | app/dashboard/page.tsx:213 | disabled if and only if the remaining count is loaded and exactly 0; a count not yet loaded does not disable |
| `Dashboard.KudoNoun` | app/dashboard/page.tsx:203 | "kudo" if and only if the remaining count is 1, otherwise "kudos" |
| `Dashboard.DecayNeverSetsNew` | app/dashboard/page.tsx:91 | decay never turns a cleared flag into a set one |
| `Dashboard.DecayOnlyTouchesFlag` | app/dashboard/page.tsx:88-92 | apart from the flags, the decayed list equals the original in length, order and every field |
| `Dashboard.DecayCompose` | app/dashboard/page.tsx:83-94 | a sweep at `now1` and then at `now2 >= now1` equals a single sweep at `now2` |
| `Dashboard.DecayIdempotent` | app/dashboard/page.tsx:87-93 | a sweep at the same instant as the previous one changes nothing |
| `Dashboard.DecayMonotone` | app/dashboard/page.tsx:90-91 | a kudo still new at a later instant is new at every earlier one |
| `Dashboard.DecayKeepsIds` | app/dashboard/page.tsx:60-64 | decay keeps the id at every position, and so the number of kudos carrying each id |
| `Dashboard.ArrivalKeepsDuplicates` | app/dashboard/page.tsx:102 | an arrival adds one more kudo with its id even when one is already listed: no de-duplication |
| `Dashboard.SweepAfterArrival` | app/dashboard/page.tsx:83-104 | after an arrival, a sweep keeps the arrival new exactly while it is in the window and decays the rest as before |
| `Dashboard.ArrivalFades` | app/dashboard/page.tsx:102 | a kudo pushed at `t` is still new at `t + 119999` ms and not new at `t + 120000` ms |
| `Dashboard.DashboardPage.constructor` | app/dashboard/page.tsx:29-34 | empty lists, no count loaded, loading, modal closed |
| `Dashboard.DashboardPage.LoadData` | app/dashboard/page.tsx:44-79 | without a user nothing runs; a successful batch stores the decayed received list, the raw sent list, the count and the teammates; a failed batch keeps the state; loading ends on both paths |
| `Dashboard.DashboardPage.Sweep` | app/dashboard/page.tsx:82-97 | the received list becomes its decay at the sweep instant, and nothing else changes |
| `Dashboard.DashboardPage.HandleNewKudo` | app/dashboard/page.tsx:100-104 | the received list becomes the arrival in front of the old list, and nothing else changes |
| `Dashboard.DashboardPage.HandleKudosGiven` | app/dashboard/page.tsx:110-134 | a successful batch replaces the two lists and the count, with the received list decayed; a failure changes nothing; teammates and loading are untouched |
| `Dashboard.DashboardPage.ClickGiveKudos` | app/dashboard/page.tsx:210-214 | the modal opens exactly when the button is not disabled |
| `GiveKudos.Truncate` | components/GiveKudosModal.tsx:153 | the stored message is the input's first at most 500 code units, and the whole input when it fits |
| `GiveKudos.TruncateIdempotent` | components/GiveKudosModal.tsx:153 | re-truncating a stored message keeps it |
| `GiveKudos.RemainingChars` | components/GiveKudosModal.tsx:47-48 | counter plus message length is 500, and the counter is in [0, 500] for any stored message |
| `GiveKudos.HasRecipient` | components/GiveKudosModal.tsx:53 | a recipient counts as selected exactly when the id is set and is not 0 |
| `GiveKudos.CanSubmit` | components/GiveKudosModal.tsx:53-55 | the submit guard passes if and only if a truthy recipient id is selected and the message is not all whitespace |
| `GiveKudos.GuardIgnoresPadding` | components/GiveKudosModal.tsx:53 | whitespace around the message never changes the guard's answer |
| `GiveKudos.SubmitEnabled` | components/GiveKudosModal.tsx:184 | the button is enabled if and only if not loading, a recipient is selected and the message is not blank |
| `GiveKudos.BuildRequest` | components/GiveKudosModal.tsx:60-63 | the request carries the selected id and the trimmed, non-empty message |
| `GiveKudos.GiveErrorMessage` | components/GiveKudosModal.tsx:75-77 | the notice is never empty: a truthy `non_field_errors[0]` first, then a truthy `detail`, then the fixed fallback |
| `GiveKudos.PrecedenceReversed` | contexts/AuthContext.tsx:112-115 | with both fields present, login shows `detail` while the form shows the field error |
| `GiveKudos.EmptyFieldErrors` | contexts/AuthContext.tsx:114-115 | an empty `non_field_errors` list leaves the login notice undefined, while the form falls back to its fixed text |
| `GiveKudos.GiveKudosForm.constructor` | components/GiveKudosModal.tsx:42-44 | no recipient, empty message, not loading |
| `GiveKudos.GiveKudosForm.SelectUser` | components/GiveKudosModal.tsx:107 | the clicked teammate becomes the recipient, and nothing else changes |
| `GiveKudos.GiveKudosForm.ChangeMessage` | components/GiveKudosModal.tsx:153 | the stored message is the truncated input, so it never exceeds 500 code units |
| `GiveKudos.GiveKudosForm.BeginSubmit` | components/GiveKudosModal.tsx:50-63 | a request is sent exactly when the guard passes, built from the selected id and the trimmed message; loading is then true; otherwise nothing changes |
| `GiveKudos.GiveKudosForm.CompleteSubmit` | components/GiveKudosModal.tsx:59-81 | success clears the recipient and the message, closes the dialog and calls `onSuccess`; failure keeps the form and yields the form's error notice; loading is false on both paths |

## Left out

- hooks/usePusher.ts is not part of this model. It wraps the realtime relay library and a module-level connection singleton. Only its callback into the dashboard, `HandleNewKudo`, is modelled.
- app/layout.tsx and components/KudosCard.tsx are rendering only. The display-name and avatar helpers they use live in lib/utils, which is not part of this model.
- Rendering, CSS classes, toasts other than the login and give-kudos error notices, `router.push`, logging, and the orange colour of the character counter are not modelled.
- The HTTP transport, the backend's rules, pagination and the contents of tokens are not modelled. Each call's settled outcome is a method input.
- The thin endpoint wrappers in lib/api.ts:115-188 are not modelled separately. Their outcomes are those inputs.
- `Auth.AuthProvider` takes the final outcome of each call. It is not composed with `Api.ApiClient.Send`, so the store writes that the interceptor makes while a session call is in flight are not part of its contracts.
- Concurrency is not modelled: `Promise.all`, the `setInterval` scheduling, and races between a fetch and a realtime push. Each handler is one sequential step. The batch is taken as one joint success or failure.
- `new Date(...).getTime()` parsing is left out, and so is floating-point time beyond 2^53 ms. Times are integer milliseconds.
- Strings are sequences of Dafny `char`s, which are Unicode scalar values, and the model reads each one as one UTF-16 code unit. Text outside the Basic Multilingual Plane (an emoji, for instance) takes two code units in the source and cannot be represented here at all.
- GiveKudos.Truncate: models the 500-unit `slice(0, 500)` only for text within the Basic Multilingual Plane, where one `char` is one code unit.
- GiveKudos.RemainingChars: models `500 - message.length` only for text within the Basic Multilingual Plane.
- GiveKudos.GiveKudosForm.ChangeMessage: keeps the 500-unit limit only for text within the Basic Multilingual Plane.
- The request interceptor's error handler (lib/api.ts:52-54) only passes the error on, so it is not modelled.
- The `catch` at lib/api.ts:94 could also receive a type error from a malformed refresh response body. The model takes a successful refresh outcome to be the new access token.
- `selectedUser` (components/GiveKudosModal.tsx:46) is only used for the success toast, so it is not modelled.
- types/index.ts declares a `stars` field on the give-kudos request, but the form never sends it (components/GiveKudosModal.tsx:60-63). `KudosTypes.GiveKudosRequest` carries only the two fields that are sent.
