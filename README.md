# EmergencyQR front end — verified model of its decision logic

The EmergencyQR front end is a single-page application over a remote API. Users sign in,
keep a list of emergency contacts, and get a QR code. Scanning the code opens a public
profile page. That page can send an SOS alert with the device location and hosts a chat
with a remote assistant. Almost all of the code is presentation. This project models in
Dafny the four pieces that decide something:

- **Credential checks** (`auth.dfy`, module `Auth`). `validateEmail` is modelled twice.
  `MatchesEmailPattern` is what the regular expression `/^[^\s@]+@[^\s@]+\.[^\s@]+$/` matches.
  `ValidateEmail` is a decision procedure. A lemma proves the two agree.
  `validatePassword` counts UTF-16 code units, as JavaScript's `length` does.
  The login and sign-up handlers reject a form with a chain of early returns. That chain is
  specified by `FirstFailure` over an ordered list of `Rule`s. The `AuthPage` class holds the
  page state: `activeForm`, `loading`, `error` and `success`. It also refers to the session
  store and to local storage.
- **Contact editor and submission gate** (`home.dfy`, module `Home`). The `Dashboard`
  class holds `contacts` as a `seq<Contact>`, plus `qrData`, `error`, `success`,
  `submitting` and `loading`. Add, remove and field change are methods. Each method states
  the whole new list and what did not change. `ValidContacts` is the filter, and its
  lemmas are proved by induction.
- **SOS alert state machine, profile load and geolocation** (`profile.dfy`, module
  `Profile`). The `EmergencyDetailsPage` class holds `sosLoading`, `sosActivated` and
  `sosMessage`, and `Valid()` ties them to where `handleSOS` is suspended. The two
  `setTimeout` callbacks are separate methods. The status chains are the pure functions
  `LoadFailure` and `SosFailure`.
- **Chat transcript** (`profile.dfy`). Each message gets its user entry first, then
  exactly one bot entry appended by the reply timer. `Valid()` keeps the transcript
  alternating, bot then user. The user's turn is open exactly while the bot is typing.

Shared pieces: `common.dfy` has `Option`, the abstract `Response`, and JavaScript
truthiness of strings. `text.dfy` has JavaScript white space and `trim`. `session.dfy`
has the user document, the session store and local storage.

Each asynchronous handler is split at its `await`. The first method does everything up to
the request and returns that request; `None` means nothing was sent. A second method
takes the reply as a `Response` value. That value is a status plus a body, or a network
failure. The body decoded to a value, decoded to JSON `null`, or failed to decode.
Reading a field of `null` throws a `TypeError`, and the handlers' `catch` blocks show
its message. Each timer callback is a third method. In `home.dfy` and `profile.dfy` a
`*Stage` field records where a handler is suspended, and each callback's method
requires its stage. In `auth.dfy` the field `pending` names the handler awaiting its
reply, and `signupTimers` counts the scheduled switches back to the login form.

Controls that the page disables become `requires` clauses. The source cites are
auth.jsx:279 and 450 (`loading`), home.jsx:312 (remove shown only with two or more rows),
home.jsx:356 (`submitting`), profile.jsx:224 (`sosLoading || sosActivated`) and
profile.jsx:747 (`isBotTyping`).

Where the code and its user-facing text disagree, the model follows the code.
`validatePassword` accepts six characters, but the error text (auth.jsx:35, 89) and the
hint (auth.jsx:412) say eight. The contract of `ValidatePassword` states that every
password of six or more characters is accepted. The login stores its token under `authToken` (auth.jsx:59). The
SOS request reads its bearer token from `emergencyToken` (profile.jsx:94), a key nothing
in these files writes. The model keeps both keys as written.

## Model

| member | source | states |
|---|---|---|
| `Text.TrimStart` | src/pages/auth.jsx:78 | the result is a suffix of the input that does not start with white space, and everything dropped is white space (the leading half of `trim`) |
| `Text.TrimEnd` | src/pages/home.jsx:68 | the result is a prefix of the input that does not end with white space, and everything dropped is white space (the trailing half of `trim`) |
| `Text.TrimIsCore` | src/pages/home.jsx:68 | `trim` returns a contiguous slice that neither starts nor ends with white space, with only white space outside it |
| `Text.IsBlank` | src/pages/auth.jsx:78 | `!s.trim()`: `trim` leaves nothing; `BlankIffAllWhitespace` states what that means |
| `Text.BlankIffAllWhitespace` | src/pages/auth.jsx:78 | `!s.trim()` holds exactly when every character of `s` is white space |
| `Common.FieldOr` | src/pages/auth.jsx:54 | JavaScript's `or` of a string field with a fallback: the field when it is present and non-empty, the fallback otherwise |
| `Session.SessionStore.constructor` | src/utils/userStore.js:5-14 | the store starts with whatever the persisted copy held |
| `Session.SessionStore.SetUser` | src/utils/userStore.js:9 | `setUser` replaces the one `user` slot |
| `Session.LocalStorage.GetItem` | src/pages/profile.jsx:94 | `getItem` yields the stored value exactly for a key that was set, else nothing (`null`) |
| `Session.LocalStorage.SetItem` | src/pages/auth.jsx:59 | `setItem` overwrites one key, leaves the other keys alone, and the value can be read back |
| `Auth.IndexOf` | src/pages/auth.jsx:14 | finds the first occurrence of a character: no earlier occurrence exists, and -1 exactly when there is none |
| `Auth.ValidateEmail` | src/pages/auth.jsx:13-15 | `validateEmail` as a decision procedure; an accepted address has at least five characters, an `@` and a `.` (`ValidateEmailMatchesPattern` ties it to the regular expression) |
| `Auth.ValidateEmailMatchesPattern` | src/pages/auth.jsx:13-15 | `validateEmail` accepts exactly the strings the regular expression matches: no white space, one `@` with a non-empty part before it, and after it an `@`-free part holding a `.` with a character on each side |
| `Auth.EmailSplitIsValid` | src/pages/auth.jsx:14 | every way the pattern can match (an `@` position and a `.` position with three non-empty `[^\s@]` runs) is accepted |
| `Auth.MalformedEmailRejected` | src/pages/auth.jsx:14 | a string with no `@`, with two or more `@`, or with any white space is rejected |
| `Auth.Utf16Length` | src/pages/auth.jsx:18 | JavaScript's `length` counts between one and two code units per character |
| `Auth.ValidatePassword` | src/pages/auth.jsx:17-19 | `validatePassword`: every password of six or more characters passes (so six and seven pass despite the "at least 8" text), and fewer than three never passes |
| `Auth.FirstFailing` | src/pages/auth.jsx:29-37 | the index of the first failing check: every earlier check holds and this one fails, or it is the list length when all hold |
| `Auth.FirstFailure` | src/pages/auth.jsx:29-96 | what a chain of early returns leaves in `error`: nothing exactly when every check holds, and otherwise the message of the first failing check, wherever it sits; `LoginRules` and `SignupRules` list the checks of the two handlers in source order |
| `Auth.LoginVerdict` | src/pages/auth.jsx:29-37 | login reports "Please enter a valid email" for a bad email even when the password is also short; reports the password message only for a valid email; passes exactly when both hold |
| `Auth.SignupVerdict` | src/pages/auth.jsx:78-96 | sign-up checks blank name, email, password, then confirmation; it reports only the first failure and passes exactly when all four hold |
| `Auth.WhitespaceNameRefused` | src/pages/auth.jsx:78-81 | a name that is empty or all white space gets "Name is required", whatever the other fields hold |
| `Auth.LoginResult` | src/pages/auth.jsx:51-64 | a login signs in exactly when the reply is ok and decodes to an object, carrying `data.user` and the token text; a non-ok reply gives the server message or "Login failed"; a `null` body gives the `TypeError` from reading `message` (non-ok) or `user` (ok); every error message is non-empty |
| `Auth.SignupResult` | src/pages/auth.jsx:111-126 | a registration succeeds exactly when the reply is ok and decodes, `null` included, since no field is read on success; a non-ok reply gives the server message or "Signup failed", or the `TypeError` from reading `message` of `null`; every error message is non-empty |
| `Auth.AuthPage.constructor` | src/pages/auth.jsx:6-9 | the page starts on the login form, not loading, with no messages |
| `Auth.AuthPage.ShowForm` | src/pages/auth.jsx:486-503 | the form links switch `activeForm` and change nothing else |
| `Auth.AuthPage.SubmitLogin` | src/pages/auth.jsx:21-47 | clears both messages; sends the credentials exactly when `FirstFailure` of the login checks is empty, then setting `loading`; otherwise shows that first failure and leaves `loading` false |
| `Auth.AuthPage.LoginResponded` | src/pages/auth.jsx:51-65 | the success text appears whenever the reply is ok and decodes (`LoginSuccessShown`), even for a `null` body that then fails; on sign-in, sets the user `data.user` and the token under "authToken"; on error, sets the error and stores nothing; `loading` ends false either way |
| `Auth.AuthPage.SubmitSignup` | src/pages/auth.jsx:68-109 | clears both messages; posts name, email and password exactly when the four sign-up checks pass; otherwise shows the first failure and sends nothing |
| `Auth.AuthPage.SignupResponded` | src/pages/auth.jsx:111-127 | on success, sets the confirmation and schedules the switch to login; on error, sets the message; `loading` ends false |
| `Auth.AuthPage.SignupTimerFired` | src/pages/auth.jsx:118-121 | the delayed callback returns to the login form and clears the success text |
| `Home.ValidContacts` | src/pages/home.jsx:68 | the filtered list is no longer than the input, holds only contacts with a non-blank name and phone, and holds every such contact of the input |
| `Home.ValidContactsIsSubsequence` | src/pages/home.jsx:68 | the filter keeps the surviving contacts in their original order |
| `Home.ValidContactsCounts` | src/pages/home.jsx:68 | each complete contact survives as many times as the input holds it, and no incomplete one survives; with the order lemma this fixes the result exactly |
| `Home.ValidContactsCons` | src/pages/home.jsx:68 | the filter keeps a contact exactly when its own name and phone are non-blank, then goes on with the rest |
| `Home.ValidContactsAppend` | src/pages/home.jsx:68 | filtering a concatenation is the concatenation of the filtered parts |
| `Home.ValidContactsEmpty` | src/pages/home.jsx:68-72 | nothing survives the filter exactly when no contact has both a non-blank name and a non-blank phone |
| `Home.ValidContactsOfComplete` | src/pages/home.jsx:68 | a list of complete contacts is submitted unchanged |
| `Home.IsComplete` | src/pages/home.jsx:68 | the filter's test: both the name and the phone are non-blank, which by `BlankIffAllWhitespace` means each holds a character that is not white space |
| `Home.QrFromUser` | src/pages/home.jsx:18-29 | the QR view exists exactly when the stored user has a truthy `qrCode`, and then copies that user's id, blood type, history, contacts and code |
| `Home.WithField` | src/pages/home.jsx:55 | setting one field of a contact leaves the other field as it was |
| `Home.Dashboard.constructor` | src/pages/home.jsx:5-11 | the editor starts loading, with exactly one blank contact and no QR view |
| `Home.Dashboard.LoadFromStore` | src/pages/home.jsx:14-41 | the mount callback shows the QR view derived from the stored user when there is one, else keeps the old view; loading ends |
| `Home.Dashboard.AddContact` | src/pages/home.jsx:43-45 | appends exactly one blank contact at the end; earlier entries and all other state are unchanged |
| `Home.Dashboard.RemoveContact` | src/pages/home.jsx:47-51 | deletes exactly the entry at the index: length one less, earlier entries kept, later ones shifted down one; the list stays non-empty because the control needs two rows |
| `Home.Dashboard.ChangeContact` | src/pages/home.jsx:53-57 | only the named field of the entry at the index changes; length and other entries are unchanged |
| `Home.Dashboard.Submit` | src/pages/home.jsx:59-90 | clears both messages; with no complete contact, shows "Please add at least one emergency contact", sends nothing and stays not submitting; otherwise submits and sends the filtered list, not the raw one |
| `Home.Dashboard.UpdateResponded` | src/pages/home.jsx:91-117 | any decoded update reply, `null` included, leads to the QR request, and its status is not checked; a reply that fails to decode or arrive ends the submission with the QR error |
| `Home.Dashboard.QrResponded` | src/pages/home.jsx:93-117 | a decoded QR reply after a non-null update reply stores the updated user with `qrCode` replaced by the new code; a failed reply, or either body being `null`, sets the QR error, clears `submitting` and stores nothing |
| `Home.Dashboard.SuccessTimerFired` | src/pages/home.jsx:108-112 | the delayed callback shows the success text and clears `submitting` |
| `Home.Dashboard.Edit` | src/pages/home.jsx:120-125 | always clears the QR view, and when there was one, first loads its contacts into the editor |
| `Profile.LoadFailure` | src/pages/profile.jsx:26-41 | a profile is accepted exactly when the reply is ok and decodes to an object; 404 gives "User not found", 500 "Server error", other non-ok "Failed to load information", a `null` or non-object body "Invalid data format"; every message is non-empty |
| `Profile.SosFailure` | src/pages/profile.jsx:102-121 | an alert succeeds exactly when the reply is ok, decodes and has `success`; 401 gives "Authentication failed", 429 "Too many SOS requests", other non-ok "SOS request failed", no `success` gives the server message or "SOS failed", a `null` body the `TypeError` from reading `success`; every message is non-empty |
| `Profile.BotReply` | src/pages/profile.jsx:136-153 | the bot's answer is the server message, or "I couldn't understand that..." when the ok reply has none, or the connection apology on any failure, a `null` body included; it is never empty |
| `Profile.AlternatesAppend` | src/pages/profile.jsx:124-150 | appending the next speaker's message keeps the transcript alternating |
| `Profile.EveryQuestionAnswered` | src/pages/profile.jsx:124-154 | in a settled transcript, every user message is followed directly by a bot message |
| `Profile.EmergencyDetailsPage.SosButtonDisabledWhileBusy` | src/pages/profile.jsx:224 | the SOS button is disabled exactly while an alert is being sent or is active |
| `Profile.EmergencyDetailsPage.constructor` | src/pages/profile.jsx:5-18 | the page starts loading, with no location fix, SOS idle, and only the greeting in the chat |
| `Profile.EmergencyDetailsPage.ProfileResponded` | src/pages/profile.jsx:24-42 | a failed load shows its message and ends loading; an accepted body waits for the display timer; SOS and chat state are untouched |
| `Profile.EmergencyDetailsPage.DisplayTimerFired` | src/pages/profile.jsx:35-38 | the delayed callback shows the accepted profile and ends loading |
| `Profile.EmergencyDetailsPage.LocationPolled` | src/pages/profile.jsx:53-65 | a fix replaces the location; a failed fix falls back to the location of the profile the poller holds, if any, else keeps the old one |
| `Profile.EmergencyDetailsPage.PressSos` | src/pages/profile.jsx:80-100 | a falsy latitude or longitude (0 included) gives "Waiting for location data..." and sends nothing, `sosLoading`/`sosActivated` unchanged; otherwise it starts sending, clears the message and sends one request with the profile id, `lat`, the longitude as `long`, and the stored token |
| `Profile.EmergencyDetailsPage.SosResponded` | src/pages/profile.jsx:102-121 | every failure ends with its message, `sosLoading` false and `sosActivated` unchanged; a success waits for the send delay |
| `Profile.EmergencyDetailsPage.SendDelayFired` | src/pages/profile.jsx:109-117 | the send delay makes the alert active with "Emergency contacts notified", stops loading, and keeps the button disabled |
| `Profile.EmergencyDetailsPage.CooldownFired` | src/pages/profile.jsx:113-116 | the cooldown deactivates the alert and clears the message, which enables the button again |
| `Profile.EmergencyDetailsPage.TypeInput` | src/pages/profile.jsx:741 | typing changes only the input text |
| `Profile.EmergencyDetailsPage.SendMessage` | src/pages/profile.jsx:124-161 | it sends exactly when the send button is enabled (`SendDisabled`, profile.jsx:747); blank input changes nothing; otherwise it appends the user message as typed, clears the input, sets the bot typing, and sends exactly one request with the message and route id |
| `Profile.EmergencyDetailsPage.ChatResponded` | src/pages/profile.jsx:136-146 | the reply fixes the bot's answer (`BotReply`); nothing visible changes and the bot is still typing |
| `Profile.EmergencyDetailsPage.AnswerTimerFired` | src/pages/profile.jsx:141-153 | the delayed callback appends exactly one bot message and the bot stops typing |

## Left out

- Markup, CSS, SVG, the chat open/close toggle and scrolling are presentation only.
- `fetch` and `res.json()` are not modelled as I/O. Each reply is an abstract `Response`, and network and parse failures carry their exception text as given. A body that decodes to a number, string or array reads every field as `undefined`, so it is written as the record with every field missing; `null` has its own case.
- `navigate("/home")` (auth.jsx:60), `window.location.reload()` (home.jsx:113) and `console.log` are left out. After the reload the success timer would normally never fire; the model keeps it as an event.
- Timer durations are not modelled, and nothing is said about which timer fires first. Each callback is an event that needs its own stage.
- Browser constraint validation is not modelled: `required`, `type="email"` (auth.jsx:213, 370) and `required` on the dashboard fields. The browser may stop a submission before any handler runs; the model describes the handlers for every input.
- Concurrency beyond the disabled controls is not modelled: overlapping handlers and updates after unmount.
- The geolocation interval is never cleared (profile.jsx:67, 73), and each profile change starts another poller. The model only says which profile a poller's closure can hold (`captured`).
- The "Geolocation not supported" alert (profile.jsx:51) is not modelled.
- The clipboard copies (home.jsx:229, profile.jsx:425) are left out.
- `handleDownloadQR` (profile.jsx:163-178) is not wired to any control and is left out.
- `Session.Coord`: coordinates are reals, and only their falsiness is used. NaN, which is also falsy, is not modelled.
- `Home.UpdateData`: the update reply is assumed to carry a `user`. Without one, the spread at home.jsx:102 would store an object holding only `qrCode`.
- `Home.Dashboard.ChangeContact`: `[...contacts]` is a shallow copy, so the source also mutates the contact object that the previous state shares. The model works on values and does not capture that aliasing.
- `Home.Dashboard.LoadFromStore`: the `catch` at home.jsx:33-36 is left out, because nothing in its `try` can throw.
- `Common.NullRead` is V8's wording of the `TypeError` raised when a field of `null` is read (`Profile.NoProfileError` is the one for `userData._id`). Other engines word it differently.
- The local keyword table for first-aid answers is not part of this model. The page modelled here sends every chat message to the remote endpoint.
- src/App.jsx is a routing table and is not part of this model.
