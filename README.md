# pdfier front-end core, modelled in Dafny

pdfier is a Next.js front-end for a PDF tool and chat-with-your-documents
backend. This project models the logic of that front-end that decides things:

- **the session store** (`AuthStore`). It holds:
  - who the visitor is: an authenticated user, the default guest, or nobody yet;
  - the two credential cookies and the `isInitializing` flag.

  It has five actions. `initializeAuth` checks the session on load, trying a refresh on a 401 and falling back to a guest otherwise. The other four are `login`, `logout`, `updateUserUsage` and `updateGuestUsage`.
- **the user records** (`AuthTypes`). A `plan_type` tag tells authenticated users from guests.
- **the selected-files list** of the tool pages (`FileStore`).
- **the service calls** (`Documents`, `Messages`, `Conversations`, with the shared parts in `Http`). They differ in how they treat the answers:
  - `fetchDocuments` and `fetchMessages` try candidate endpoints in order and keep the last error. They return the first list-shaped answer: a bare array or `{data: array}`.
  - `uploadDocument` and `sendChat` also try candidate endpoints in order. They return any OK body, or `{}` when the body is not JSON.
  - `fetchConversations` sends one request, with no fallback. An OK body that is not list-shaped becomes the empty list.
- **the list stores** fed by those calls (`ConversationStore`, `DocumentStore`).
- **the redirect decision** of the `useAuth` hook and its sticky `isAuthorized` flag (`UseAuth`).
- **the active-link test** of the sidebar (`Sidebar`).

The stores are classes whose methods update their fields. Their contracts give the whole new state. The service loops are `while` loops. Each is proved equal to one function, `Http.Run`: the first value accepted, else the last error recorded, else a default error. Lemmas about `Run` then give the properties of each service. For example, the document listing never throws its default error, while the message listing does when every answer is OK but wrongly shaped.

Everything outside the page is a parameter:
- `fetch` is a function from a request to an outcome (a response, or a thrown error);
- `encodeURIComponent` is a function on strings;
- the random file ids are a function from position to id;
- the current time is a string argument;
- the two backend calls of `initializeAuth` are functions of what the store sends them.

The cookie jar is a map field of the session store. Page reloads and router pushes are recorded in a list of effects. Each state the session store publishes to its subscribers is recorded in a ghost history. The `isInitializing` bracket is stated over that history.

In four places the code does something other than what is evidently intended. The model follows the code:

- **Cookie expiry.** A seven-hour lifetime is evidently intended for the access credential. The code writes `expires: 420` for the access cookie and `expires: 4320` for the refresh cookie. js-cookie reads these numbers as days. The model keeps the numbers as written, and proves only that the refresh cookie outlives the access cookie.
- **The user after initialisation.** The user is evidently meant to be set once initialisation ends. The code leaves it unchanged on a successful refresh, and relies on the page reload that follows. So on a cold start it stays null (`AuthStore.UserSetUnlessRefreshed`).
- **What is persisted.** No credential is evidently meant to reach persisted storage. `partialize` persists `refreshToken`. The model keeps it (`AuthStore.Partialize`), and proves only that the access token is not persisted.
- **Trailing slash.** The other services strip one trailing slash from the backend URL first. `fetchConversations` builds its URL from the unstripped one.

## Model

| member | source | states |
|---|---|---|
| Http.HasDataArray | pdfier/src/services/documents.ts:46 | `data && Array.isArray(data.data)`: an object whose `data` member is an array; a missing or non-array `data` fails the test |
| Http.ListItems | pdfier/src/services/documents.ts:45-46 | a list-shaped body yields the array itself, or the array under `data` |
| Http.ArrayOrEmpty | pdfier/src/store/DocumentStore.ts:17 | `Array.isArray(x) ? x : []`: the items of an array, the empty list for anything else |
| Http.BaseUrl | pdfier/src/services/documents.ts:17 | with a trailing `/`, the base plus `/` is the backend URL; without one, the base is the URL unchanged |
| Http.Configured | pdfier/src/services/documents.ts:15 | `!BACKEND_URL` fails both for an unset variable and for the empty string |
| Http.IsOk | pdfier/src/services/documents.ts:36 | `res.ok`: the status lies in 200-299 |
| Http.BaseUrlStripsOneSlash | pdfier/src/services/messages.ts:66 | only one trailing slash is stripped: `…//` keeps one slash |
| Http.AuthHeader | pdfier/src/services/documents.ts:32 | the header is sent exactly when the access token is present and non-empty, as `Bearer <token>` |
| Http.Run | pdfier/src/services/documents.ts:23-54 | the candidate loop and `throw lastError ?? fallback` (the same shape at documents.ts:69-96 and messages.ts:31-58, 75-103): the first accepted value, else the last error recorded, else the fallback; its properties are the `Run…` lemmas below |
| Http.Attempts | pdfier/src/services/documents.ts:24-53 | the loop asks at most every candidate, and at least one when there is one |
| Http.RunAcceptsFirst | pdfier/src/services/documents.ts:24-53 | the loop returns the first accepting candidate's value, after asking exactly the candidates up to it |
| Http.RunSuccessComesFromFirstAccept | pdfier/src/services/messages.ts:76-102 | a successful loop's value comes from a candidate that accepted, with no earlier candidate accepting |
| Http.NoAcceptTriesAll | pdfier/src/services/messages.ts:76-102 | when no candidate accepts, every candidate is asked |
| Http.RunAllMoveOn | pdfier/src/services/messages.ts:95-103 | when every candidate moves on without recording, the loop throws the error it started with, or the default |
| Http.RunThrowsLastRejection | pdfier/src/services/documents.ts:49-54 | with no accept, the error thrown is the one recorded by the last candidate that recorded one |
| Http.RunAt | pdfier/src/services/documents.ts:24-53 | one turn of the loop: accept returns, reject records the error and goes on, move-on goes on |
| Http.RunFailureMeansNoAccept | pdfier/src/services/documents.ts:54 | the loop throws only when no candidate accepted |
| Http.RunWithoutMoveOnThrowsLastError | pdfier/src/services/messages.ts:44-58 | when every candidate records an error, the last candidate's error is thrown, never the default |
| Http.BodyStep | pdfier/src/services/documents.ts:82-94 | a thrown call and a non-OK status are recorded, with status and text; an OK response is returned with its JSON, or `{}` |
| FileStore.Previews | pdfier/src/store/FileStore.ts:25-31 | one entry per file, in order, each with its file, the id drawn for it, and the file's name, size and type copied |
| FileStore.WithoutId | pdfier/src/store/FileStore.ts:42 | `files.filter(file => file.id !== id)`: never longer than the list, and every kept entry was in the list and has another id |
| FileStore.WithoutIdMembers | pdfier/src/store/FileStore.ts:42 | after removal an entry is present exactly when it was there before under another id |
| FileStore.WithoutIdAppend | pdfier/src/store/FileStore.ts:42 | removal distributes over concatenation, so kept entries keep their order |
| FileStore.WithoutUnknownId | pdfier/src/store/FileStore.ts:38-44 | removing an id no entry carries leaves the list unchanged |
| FileStore.WithoutIdIdempotent | pdfier/src/store/FileStore.ts:38-44 | removing the same id twice is removing it once |
| FileStore.Store.constructor | pdfier/src/store/FileStore.ts:21 | the list starts empty |
| FileStore.Store.AddFiles | pdfier/src/store/FileStore.ts:23-36 | the new entries are appended after the old ones, which stay as they were; the length grows by the number of files |
| FileStore.Store.RemoveFile | pdfier/src/store/FileStore.ts:38-44 | the list becomes the ordered filter of the old one; no entry keeps the id and every other entry stays |
| FileStore.Store.ClearFiles | pdfier/src/store/FileStore.ts:46-49 | the list becomes empty, whatever it was, so clearing twice is clearing once |
| FileStore.Store.SetFiles | pdfier/src/store/FileStore.ts:50 | the list becomes exactly the one given |
| Documents.ListCandidates | pdfier/src/services/documents.ts:18-21 | two listing endpoints under the base, the versioned `/api/v1/` one first |
| Documents.UploadCandidates | pdfier/src/services/documents.ts:62-64 | one upload endpoint under the base, the versioned `/api/v1/` one |
| Documents.ListStep | pdfier/src/services/documents.ts:36-52 | an attempt accepts exactly an OK list-shaped body, yielding its list; an OK body of any other shape records "unexpected shape"; it never moves on silently |
| Documents.FetchDocuments | pdfier/src/services/documents.ts:14-55 | no request without a backend URL; otherwise the result is `Run` over the two candidates, with one GET per candidate asked, in order |
| Documents.ListingFailsWithSecondCandidateError | pdfier/src/services/documents.ts:36-54 | when the listing fails, it throws the error recorded for the second endpoint, never the default |
| Documents.ListingPrefersVersionedEndpoint | pdfier/src/services/documents.ts:18-46 | an OK list from `/api/v1/documents` is returned and `/documents` is never asked |
| Documents.UploadDocument | pdfier/src/services/documents.ts:57-97 | no request without a backend URL or without a file (in that order); otherwise the result is `Run` over the one POST candidate |
| Documents.UploadOutcome | pdfier/src/services/documents.ts:82-96 | the upload returns the body of its one OK response, or throws the error its one request recorded |
| Messages.Truthy | pdfier/src/services/messages.ts:23 | JavaScript truthiness of an optional string: present and non-empty |
| Messages.ChatCandidates | pdfier/src/services/messages.ts:26-29 | two chat endpoints under the base, the versioned `/api/v1/` one first |
| Messages.MessageCandidates | pdfier/src/services/messages.ts:69-73 | three message-listing endpoints under the base, the versioned `/api/v1/` one first |
| Messages.SendChat | pdfier/src/services/messages.ts:21-59 | no request without a backend URL, or without a non-empty query and collection id; otherwise `Run` over `/api/v1/chat` then `/chat`, POSTing to each candidate asked |
| Messages.ChatFailsWithSecondCandidateError | pdfier/src/services/messages.ts:44-58 | when sending fails, the error is the one recorded for `/chat`, never the default |
| Messages.MessagesStep | pdfier/src/services/messages.ts:87-101 | an attempt accepts exactly an OK list-shaped body; it moves on without recording exactly when the OK JSON body has another shape |
| Messages.FetchMessages | pdfier/src/services/messages.ts:63-104 | no request without a backend URL; otherwise `Run` over the three candidates in their fixed order, one GET per candidate asked |
| Messages.AllWrongShapesGiveDefaultError | pdfier/src/services/messages.ts:95-103 | when every endpoint answers OK with a non-list, all three are asked and the default error is thrown |
| Messages.WrongShapeKeepsEarlierError | pdfier/src/services/messages.ts:87-103 | a later wrongly shaped OK answer does not overwrite an earlier recorded error |
| Conversations.ConversationsUrl | pdfier/src/services/conversations.ts:18 | the backend URL exactly as given (no slash stripped), followed by the conversations path and the encoded collection id |
| Conversations.NormalizeList | pdfier/src/services/conversations.ts:33-35 | an array or `{data: array}` yields its list; any other body yields the empty list |
| Conversations.FetchConversations | pdfier/src/services/conversations.ts:14-36 | no request without a backend URL; otherwise exactly one GET, and each outcome (thrown, non-OK with status, non-JSON, JSON) gives its own result |
| Conversations.OkJsonNeverThrows | pdfier/src/services/conversations.ts:31-35 | an OK JSON answer never makes the call throw; a non-list body gives the empty list |
| Conversations.NormalizeListIdempotent | pdfier/src/services/conversations.ts:33-35 | normalising the normalised list again changes nothing |
| ConversationStore.Store.constructor | pdfier/src/store/ConversationStore.ts:15-16 | no selection and an empty list |
| ConversationStore.Store.SetSelectedConversation | pdfier/src/store/ConversationStore.ts:17 | only the selection changes |
| ConversationStore.Store.SetConversations | pdfier/src/store/ConversationStore.ts:18-19 | the list becomes the value if it is an array and empty otherwise; the selection is untouched |
| ConversationStore.SelectionMayLeaveList | pdfier/src/store/ConversationStore.ts:17-19 | nothing ties the selection to the list: a selected conversation can be absent from it |
| DocumentStore.Store.constructor | pdfier/src/store/DocumentStore.ts:15-16 | an empty list and no selection |
| DocumentStore.Store.SetDocuments | pdfier/src/store/DocumentStore.ts:17 | the list becomes the value if it is an array and empty otherwise; the selection is untouched |
| DocumentStore.Store.SetSelectedDocument | pdfier/src/store/DocumentStore.ts:18 | only the selection changes |
| UseAuth.Decide | pdfier/src/hooks/useAuth.ts:10-17 | redirect to `/login` exactly when required and logged out; to `/dashboard` exactly when not required and logged in; authorise exactly in the other two cases |
| UseAuth.AuthorizedAfter | pdfier/src/hooks/useAuth.ts:8-16 | `isAuthorized` after a sequence of effect runs: `useState(false)`, and `setIsAuthorized(true)` on each run that authorises |
| UseAuth.AuthorizedAfterIsSticky | pdfier/src/hooks/useAuth.ts:8-16 | after any sequence of effect runs, `isAuthorized` holds exactly when some run authorised |
| UseAuth.LogoutKeepsAuthorization | pdfier/src/hooks/useAuth.ts:10-18 | losing the session after authorisation redirects to `/login` but leaves `isAuthorized` true |
| UseAuth.Hook.constructor | pdfier/src/hooks/useAuth.ts:8 | `isAuthorized` starts false and nothing has been pushed |
| UseAuth.Hook.RunEffect | pdfier/src/hooks/useAuth.ts:10-17 | one run pushes the route `Decide` chooses, or sets `isAuthorized`, which is never cleared |
| Sidebar.MainItemActive | pdfier/src/components/common/sidebar.tsx:92-94 | the root item is active only on `/`; any other item is active exactly when its href is a string prefix of the path |
| Sidebar.BottomItemActive | pdfier/src/components/common/sidebar.tsx:127 | a bottom item is active exactly on its own path |
| Sidebar.ActiveMainItems | pdfier/src/components/common/sidebar.tsx:92-94 | an item is highlighted exactly when it is in the list and active on the path |
| Sidebar.PrefixMatchIgnoresSegments | pdfier/src/components/common/sidebar.tsx:94 | the match is not segment-aware: `/tools` is active on `/toolsx` |
| Sidebar.ActiveBelowHref | pdfier/src/components/common/sidebar.tsx:94 | a non-root item is active on every path below it |
| Sidebar.BottomIgnoresSubpaths | pdfier/src/components/common/sidebar.tsx:127 | a bottom item is not active on any longer path that starts with its href, e.g. Settings on `/settings/x` |
| Sidebar.MergePageHighlightsTwoItems | pdfier/src/components/common/sidebar.tsx:38-40 | on `/tools/merge` both the tools overview and the merge tool are active |
| AuthTypes.PlanTypeOf | pdfier/src/types/auth.ts:15-41 | the tag is absent exactly for null, `guest` exactly for guests, and basic or premium for authenticated users |
| AuthTypes.GuestsDifferOnlyInUsage | pdfier/src/types/auth.ts:25-30 | every guest has the same fixed identity, so two guests with the same counters are equal |
| AuthStore.CookieValue | pdfier/src/store/AuthStore.ts:54 | `Cookies.get` yields a value exactly when the cookie is set, and that value is the cookie's |
| AuthStore.WithCookie | pdfier/src/store/AuthStore.ts:85-89 | the named cookie holds the new value and attributes; every other cookie is unchanged |
| AuthStore.WithoutCredentials | pdfier/src/store/AuthStore.ts:141-142 | both credential cookies are gone; every other cookie is unchanged |
| AuthStore.BearerHeader | pdfier/src/store/AuthStore.ts:59 | the header starts with `Bearer ` and continues with the access cookie, or with `undefined` when there is none |
| AuthStore.LoggedOut | pdfier/src/store/AuthStore.ts:143 | the guest user, logged out, no tokens; the two flags are kept |
| AuthStore.RepeatedLogout | pdfier/src/store/AuthStore.ts:140-144 | logging out any positive number of times ends where logging out once does |
| AuthStore.LogoutForgetsSession | pdfier/src/store/AuthStore.ts:140-144 | the state after logout does not depend on who was signed in |
| AuthStore.UserUsageUpdated | pdfier/src/store/AuthStore.ts:146-159 | an authenticated user gets the new metrics and `updated_at`; a guest or null is returned unchanged |
| AuthStore.UserUsageKeepsIdentity | pdfier/src/store/AuthStore.ts:150-154 | every other field of the user is kept |
| AuthStore.GuestUsageUpdated | pdfier/src/store/AuthStore.ts:161-181 | a guest gets only the new daily counter, with its limits kept; an authenticated user or null is returned unchanged |
| AuthStore.GuestUsageUnchecked | pdfier/src/store/AuthStore.ts:164-172 | a counter above the daily limit is stored as given, and the limit stays |
| AuthStore.Partialize | pdfier/src/store/AuthStore.ts:186-194 | the persisted record is the refresh token, `isLoggedIn`, the user and `isInitializing` |
| AuthStore.AccessTokenNotPersisted | pdfier/src/store/AuthStore.ts:186-194 | the access token and the sidebar flag never affect what is persisted |
| AuthStore.RefreshPathOf | pdfier/src/store/AuthStore.ts:67-106 | refresh is attempted only with a truthy refresh cookie; it refreshes exactly on an OK answer with a token, and is rejected exactly on a non-OK answer |
| AuthStore.InitPathOf | pdfier/src/store/AuthStore.ts:53-117 | signed in exactly on an OK answer with a user; an OK answer whose body is not JSON fails; a 401 goes to the refresh branch; any other status or a throw fails |
| AuthStore.Settle | pdfier/src/store/AuthStore.ts:63-117 | signed in: the user set, no cookie touched; refreshed: only the access cookie rewritten (420) and a reload; otherwise logged out, both cookies removed, with a push to `/login` exactly after a refused refresh; on every other path the effects are unchanged |
| AuthStore.UserSetUnlessRefreshed | pdfier/src/store/AuthStore.ts:63-117 | after initialisation the user is non-null on every path except a refresh, which keeps the earlier user |
| AuthStore.LoggedInOnlyBySignIn | pdfier/src/store/AuthStore.ts:63-117 | from a logged-out state, only an accepted `/users/me` logs the visitor in |
| AuthStore.FailuresFallBackQuietly | pdfier/src/store/AuthStore.ts:107-117 | a throw, a body that is not JSON, or an unexpected status ends as a logged-out guest with no navigation |
| AuthStore.SettleIgnoresInitializing | pdfier/src/store/AuthStore.ts:52-118 | the outcome of initialisation does not depend on the `isInitializing` flag it started with |
| AuthStore.Store.constructor | pdfier/src/store/AuthStore.ts:45-50 | logged out, no tokens, null user, not initialising, sidebar collapsed |
| AuthStore.Store.Logout | pdfier/src/store/AuthStore.ts:140-144 | both cookies removed, then the guest user, logged out, no tokens; one state published |
| AuthStore.Store.Login | pdfier/src/store/AuthStore.ts:121-137 | refresh cookie (4320) and access cookie (420) written, refresh outliving access; user signed in with both tokens |
| AuthStore.Store.UpdateUserUsage | pdfier/src/store/AuthStore.ts:146-159 | only the user changes, as `UserUsageUpdated` says; nothing is published when the guard fails |
| AuthStore.Store.UpdateGuestUsage | pdfier/src/store/AuthStore.ts:161-181 | only the user changes, as `GuestUsageUpdated` says; nothing is published when the guard fails |
| AuthStore.Store.FallBackToGuest | pdfier/src/store/AuthStore.ts:94-95 | the guest is set, then logout runs: logged out, both cookies removed; exactly two states published, the guest and then the logged-out state |
| AuthStore.Store.RefreshSession | pdfier/src/store/AuthStore.ts:69-106 | the 401 branch leaves store, cookies and navigation as `Settle` says for the refresh path |
| AuthStore.Store.CheckSession | pdfier/src/store/AuthStore.ts:63-117 | the body of the `try` leaves store, cookies and navigation as `Settle` says for the path the answer selects |
| AuthStore.Store.InitializeAuth | pdfier/src/store/AuthStore.ts:51-119 | the end state is `Settle` of the selected path, with the flag cleared; the first state published sets `isInitializing`, every later one keeps it set, the last clears it |

## Left out

- Network, cookies library and storage: the network, js-cookie and `localStorage` are not modelled. `fetch` is a parameter. The cookie jar is a map. Rehydration of the persisted store is not modelled; `partialize` is kept as a projection.
- Navigation: `window.location.reload()` and `router.push` are recorded as effects, not performed. The model does not cover whether the `next/router` singleton is mounted in the app router. If it is not, `push` throws. The catch block then repeats the guest fallback, which leaves the same store state.
- Library calls: JSON parsing, `encodeURIComponent`, `Math.random` ids and `new Date().toISOString()` are parameters. JSON numbers are integers: no service looks at them.
- Request contents: the services' request bodies and `Content-Type` headers (the form data of the upload, the chat payload) are not part of the modelled request. The backend URL and the access token are arguments rather than environment reads.
- `res.text()` cannot throw in the model. It could in the source. In the four loop services that error would be recorded by the catch of the loop. In `fetchConversations`, which has no loop and no `try`, it would be thrown straight out of the call in place of the `ConversationsFailed` error.
- AuthStore.RefreshPathOf: a refresh answer without an `access_token` field is modelled like a body that is not JSON (guest fallback). The source would instead write the cookie with an `undefined` value and reload.
- AuthStore.InitPathOf: an OK `/users/me` body is trusted to be a well-formed user record, because the source casts whatever JSON arrives to `User` without checking it. The model does not cover other bodies. A `null` body would leave the user null while `isLoggedIn` is true, and a body tagged `plan_type: 'guest'` would send later usage updates to the guest branch. `AuthStore.UserSetUnlessRefreshed` relies on this typing.
- Concurrency: a second `initializeAuth` started while one is running, and cross-tab cookie visibility, are not modelled. The unawaited `logout()` inside `initializeAuth` runs to its end before the next statement, as it does in the source because its body has no `await`.
- Console logging, the guest quota pre-check of the tool pages, and the presentational components are not part of this model.
