# safe-share-frontend: the password-gated note sharing flow, in Dafny

This project models the core of the browser client in `src/App.tsx`. A signed-in user writes a
secure note (title, content, per-note password) on the dashboard. The server returns the note with
an `_id`, and the client shows the share link `origin + "/note/" + id`. Whoever opens that link
lands on the note viewer and sees the content only after the server accepts the password. The
model covers:

- `apiRequest`, as the request it sends and the way its promise settles (module `Api`). Headers are
  merged over a JSON content type. A failed response becomes an `Error` whose message is the
  server's `msg`, or "Request failed", or `HTTP <status>`.
- the JavaScript semantics this code depends on (`Js`): JSON values, truthiness, `String(v)`,
  and property reads, which throw a TypeError on `null`.
- the deep-link pattern `^/note/([a-zA-Z0-9]+)$` as a character-by-character matcher, plus the
  share-link builder (`DeepLink`).
- the `App` component as a class (`App.App`): view, token, user, note id, and the browser
  path.
- the `Dashboard` component as a class (`Dashboard.Dashboard`): the profile-load guard, the draft,
  the created notes and the share link.
- the `NoteViewer` component as a class (`NoteViewer.NoteViewer`). `verifyNote` is split at its
  `await` into `Submit` and `Complete`.

Network results, `window.location.origin` and the pathname at mount are inputs.

The model keeps these behaviours of the code:
- `Dashboard`, taken alone, sends the create request even without a token, with the header
  `Bearer null`. For a well-formed sign-in response, `App` never renders `Dashboard` without
  a token, so in the whole app this does not happen.
- the create button is not disabled while a creation is pending;
- the thrown error carries only a message, with no status field;
- a JSON `null` error body makes the request fail with the TypeError of reading `msg`.

## Model

| member | source | states |
|---|---|---|
| Js.NatToDecimal | src/App.tsx:32 | the status text is a non-empty run of decimal digits with no leading zero |
| Js.DecimalRoundTrip | src/App.tsx:32 | reading the status text back gives the status |
| Js.DecimalInjective | src/App.tsx:32 | distinct statuses give distinct texts |
| Js.IntToDecimal | src/App.tsx:32 | `String(n)` is non-empty and starts with `-` exactly for negative n |
| Js.ToJsString | src/App.tsx:32 | `String(v)` of a truthy value is non-empty; a string converts to itself |
| Js.Get | src/App.tsx:31-32 | reading a property throws exactly on `null`, with the TypeError message; on an object it gives the field when present, else undefined |
| Api.MergeHeaders | src/App.tsx:24-27 | the merged headers keep every caller header with its value, always contain Content-Type, and that is `application/json` unless the caller set it |
| Api.Send | src/App.tsx:21-28 | the request carries the endpoint, method and body given, and the merged headers |
| Api.BearerRoundTrip | src/App.tsx:390 | `Bearer <token>` for a b64token is read back as exactly that token under section 2.1 of RFC 6750 |
| Api.NullTokenHeader | src/App.tsx:411 | for `Dashboard` taken alone without a token, the create request's credentials name the literal token "null" |
| Api.Settle | src/App.tsx:21-36 | settles fulfilled exactly for an ok response with a JSON body, giving that body; otherwise it is rejected with an `Error`: the transport's reason, the syntax error of an ok unparsable body, or the failure message |
| Api.FailureMessage | src/App.tsx:30-32 | the message of a failed response is never empty, and an unparsable body gives "Request failed"; `Api.FailureMessageCases` states every case |
| Api.FailureMessageCases | src/App.tsx:30-32 | unparsable gives "Request failed"; a truthy `msg` gives `String(msg)`; a `null` body gives the TypeError; any other body gives "HTTP " + status |
| Api.FailureMessageNonEmpty | src/App.tsx:30-32 | a failed response never yields an empty message |
| Api.StatusFallbackInjective | src/App.tsx:32 | for parsed, non-`null` error bodies without a truthy `msg`, two failures with the same message have the same status |
| DeepLink.ShareLink | src/App.tsx:425 | the link is the origin followed by `/note/` and the id, with nothing else |
| DeepLink.MatchNotePath | src/App.tsx:47 | a captured id is non-empty ASCII alphanumeric and the path is exactly `/note/` + id; `DeepLink.MatchNotePathIff` gives the converse |
| DeepLink.StripPrefixIff | src/App.tsx:47 | the literal part of the pattern yields the rest exactly when the input is the literal followed by that rest |
| DeepLink.IdToEndIff | src/App.tsx:47 | `[a-zA-Z0-9]+$` holds of a string exactly when it is non-empty and all ASCII letters and digits |
| DeepLink.MatchNotePathIff | src/App.tsx:47 | the matcher gives `Some(id)` exactly when the path is `/note/` + id with id non-empty alphanumeric |
| DeepLink.MatchNotePathNone | src/App.tsx:47-51 | a path of no such form is not matched |
| DeepLink.MatchedShape | src/App.tsx:47 | a matched path starts with `/note/` and has only class characters after it |
| DeepLink.ShareLinkRoundTrip | src/App.tsx:425 | the path part of a share link for an alphanumeric id is matched and gives back that id |
| DeepLink.RejectedPaths | src/App.tsx:47 | `/note/`, `/note/abc 123`, `/note/abc/` and `/x/note/abc` are not matched |
| DeepLink.AcceptedPath | src/App.tsx:47 | `/note/abc123` is matched with id `abc123` |
| App.App.constructor | src/App.tsx:39-53 | mounting starts with no token, in the note view with the captured id for a share path and at login otherwise |
| App.App.ResolveDeepLink | src/App.tsx:45-53 | a matching path opens the note view with that id when the token is falsy (absent or empty); with a truthy token or no match nothing changes |
| App.App.OnSuccess | src/App.tsx:84-98 | token and user are set together and the dashboard is shown, keeping the session invariant |
| App.App.Logout | src/App.tsx:55-59 | token and user are cleared together and the login view is shown |
| App.App.SwitchToLogin | src/App.tsx:89 | register screen to login screen, nothing else changes |
| App.App.SwitchToRegister | src/App.tsx:99 | login screen to register screen, nothing else changes |
| App.App.Back | src/App.tsx:108-113 | from the viewer: login view, no note id, path `/`, session untouched |
| App.App.ActiveScreen | src/App.tsx:82-115 | the viewer is rendered exactly in the note view with a non-empty note id, for that id; a valid state always renders a screen |
| App.VisitShareLink | src/App.tsx:45-113 | opening `/note/<id>` without a session shows the viewer for that id, and `onBack` ends at login with path `/` |
| Dashboard.AlertText | src/App.tsx:433 | a failed creation alerts the error's message, or "Failed to create note" |
| Dashboard.Classify | src/App.tsx:419-423 | a creation happens exactly for a response with a truthy `_id`, and its id text is non-empty; rejections and a `null` body are alerts; other bodies are ignored |
| Dashboard.AppendCreated | src/App.tsx:429 | the list grows by one, keeps its prefix, and ends with the response |
| Dashboard.OverlappingCreatesLoseNote | src/App.tsx:405-429 | as written, two overlapping creations leave only the second note in the list |
| Dashboard.OverlappingCreatesKeepBoth | src/App.tsx:429 | appending to the current list keeps both notes, in completion order |
| Dashboard.Dashboard.constructor | src/App.tsx:376-383 | the profile starts as the user prop; empty draft, no notes, no link, no error |
| Dashboard.Dashboard.BeginProfileLoad | src/App.tsx:385-392 | a fetch starts only with a non-empty token and no profile; it is a GET of `/profile/me` with `Bearer <token>` and the JSON content type |
| Dashboard.Dashboard.ProfileSettled | src/App.tsx:393-401 | success sets the profile and clears the error; failure sets the fixed error, keeps the profile and schedules a logout; loading ends either way |
| Dashboard.Dashboard.TokenChanged | src/App.tsx:103 | a new `token` prop from `App` replaces the held token and nothing else; the profile stays, since it was seeded from the `user` prop at mount |
| Dashboard.CreateAfterTokenChange | src/App.tsx:376-414 | after the token prop changes, the next create request carries `Bearer <new token>`, and the profile shown is still the one from mount |
| Dashboard.Dashboard.EditTitle | src/App.tsx:503 | only the draft's title changes |
| Dashboard.Dashboard.EditContent | src/App.tsx:509 | only the draft's content changes |
| Dashboard.Dashboard.EditPassword | src/App.tsx:516 | only the draft's password changes |
| Dashboard.Dashboard.CreateRequest | src/App.tsx:408-414 | a POST of the draft to `/notes/create` with exactly the Authorization and JSON content-type headers |
| Dashboard.Dashboard.CreateNote | src/App.tsx:405-435 | with an id: share link from that id, the response appended, the draft emptied; otherwise notes, draft and link all unchanged; an alert exactly on a rejection or a `null` body |
| Dashboard.LinkSurvivesFailure | src/App.tsx:419-434 | a share link set by a creation survives a later failure, keeps one note, and resolves back to its id |
| NoteViewer.VerifyRequest | src/App.tsx:550-553 | a POST of only the password to `/notes/<id>/verify`, with no Authorization header |
| NoteViewer.FailureText | src/App.tsx:558 | the message shown is the error's message, or "Verification failed" for a non-Error |
| NoteViewer.RefusalShowsServerText | src/App.tsx:557-558 | a refusal whose JSON body has a non-empty string `msg`, whatever else it holds, shows exactly that text, with no client wording added |
| NoteViewer.RefusalIsShown | src/App.tsx:558 | every refused verification shows a non-empty message |
| NoteViewer.NoteViewer.constructor | src/App.tsx:539-542 | starts locked, idle, with no password and no message |
| NoteViewer.NoteViewer.EditPassword | src/App.tsx:625 | only the password changes, and only while locked |
| NoteViewer.NoteViewer.Submit | src/App.tsx:544-553 | allowed only while locked, idle and with a password; sets loading, clears the message, sends the password; no second submit is possible until completion |
| NoteViewer.NoteViewer.Complete | src/App.tsx:555-562 | success stores the content and clears the message; failure stores no content and the failure text; loading ends, the password is kept, content is replaced only while locked |
| NoteViewer.RetryAfterFailure | src/App.tsx:544-563 | a refused attempt shows a message and leaves the form up; a later success unlocks with the returned content |

## Findings

| source | as written | input that shows it | evidently intended | confidence | as-written member | corrected member |
|---|---|---|---|---|---|---|
| src/App.tsx:429 | `createNote` extends the `notes` list captured when its button was clicked, and the button stays enabled while the request is pending | start with no notes; click create twice before either response arrives; both responses carry an `_id`; afterwards the list holds only the second note | each completed creation is appended to the current list, so both notes stay | medium, not executed | Dashboard.OverlappingCreatesLoseNote | Dashboard.OverlappingCreatesKeepBoth |

`Dashboard.Dashboard.CreateNote` uses the corrected append. With one creation in flight, it and the
code do the same thing.

## Left out

- The network, `response.json()`, the base URL and its environment override. Each exchange's
  outcome is an input (`Api.Exchange`, or an already-settled `Result`).
- JSON arrays and non-integer numbers. `JsonValue` has null, booleans, integers, strings and
  objects only. `String()` of the omitted kinds is not modelled.
- Js.JsonValue: `JNum` holds only integers of magnitude at most 2^53 (`Js.SafeInteger`). Those
  are the integers a JavaScript number holds exactly, and `String()` writes them without an
  exponent. Larger numbers, which `JSON.parse` rounds and which `String()` may write as `1e+21`,
  are not modelled. This applies to a numeric `msg` or `_id`.
- `Js.Get`: assumes the key is not a built-in property of strings, numbers or objects.
  This holds for `msg` and `_id`.
- `Js.NullReadMessage`: uses V8's wording of the TypeError. Other engines word it differently.
- Api.MergeHeaders: merges plain objects by exact key, as the spread does. It leaves out that
  `fetch` treats header names case-insensitively, and headers passed as a `Headers` object or
  an array. The client never passes these.
- The `setTimeout` delays. The 500 ms sign-in timer is the event `App.OnSuccess`. The 2 s
  logout timer is the `scheduleLogout` result of `Dashboard.ProfileSettled`.
- `alert`, console logging, `preventDefault`, JSX, styles, and the rendering of the unlocked
  title and content. Only whether the form or the content view is shown is modelled.
- `window.history.replaceState` and `window.location`. They are the `path` field and the
  `origin` parameter.
- The Register and Login form handlers (src/App.tsx:134-152, 261-279): loading and message UI
  around a network call. Their effect on the app is `App.OnSuccess`.
- The server's password check and decryption. The client promises nothing about which content a
  password yields.
- src/api.ts, src/pages/Register.tsx, src/pages/Login.tsx and src/pages/Dashboard.tsx. These are
  not part of this model: none of them is used by src/App.tsx.
- The sign-in response is cast `as ApiResponse` and the profile `as User`, both without a check.
  The model takes the sign-in token as a `string` and the user as a typed `User`. A sign-in
  response with no `token` would put `App` on the dashboard with an undefined token, and the
  create request would then send `Bearer undefined`. The model does not cover this.
- Unmounted components. React drops state updates inside an unmounted component. But its
  timers that call `onSuccess` or `onLogout` still change `App`, and the model keeps those as
  `App.App.OnSuccess` and `App.App.Logout`, allowed from any view but the note view.
- App.App.OnSuccess: one method stands for the two identical `onSuccess` callbacks of
  Register and Login.
- Dashboard.Dashboard.CreateNote: models one creation in flight at a time. See "Findings" for
  overlapping creations.
