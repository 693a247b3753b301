# Floating-panel browser extension: session coordinator, panel and login form

This project models the three pieces of logic at the heart of a browser
extension that shows a draggable, resizable floating panel on web pages and
keeps a signed-in session for it.

- **Background worker** (`Background`). Clicking the extension icon is
  filtered by the tab's id and url. The worker then checks that the content
  script is present by pinging it, injects it unless it answered `'pong'`,
  and asks it to toggle the panel. The worker also coordinates a session
  kept under four storage keys (`token`, `email`, `name`, `role`). It
  handles `signIn` (POST the credentials, store the four values, notify the
  originating tab, answer the caller), `LOGOUT` (remove the four keys),
  `CHECK_AUTH` (verify the token with the service, then report the stored
  user) and the start-up verification. Storage is a `map<string, string>`
  held by the `Coordinator` class. The service's replies are inputs
  (`SignInReply`, `VerifyReply`). HTTP requests and everything sent into a
  tab are recorded in logs.
- **Content script** (`Content`). The `Bridge` class holds the script's
  module variables and the part of the page it changes: the container's
  geometry, the iframe's `src`, the set of `mousemove`/`mouseup` handlers on
  `document` and the window `message` handlers. Its methods are the runtime
  message listener (`ping`, `togglePopup`), `createPopup`/`removePopup`, the
  iframe message filter (`navigate`, `closePopup`) and the drag and resize
  handlers. Geometry is in integer pixels.
- **Login form** (`SignIn`). The password rule is written twice:
  - `MatchesPasswordPattern` transcribes the regex operator by operator;
  - `MeetsPolicy` is the policy the form states.

  `ValidatePassword` computes the rule with one pass (`Tally`) and is proved
  equal to both. The `LoginForm` class holds the credentials, `loading` and
  `error` state, the messages sent, and the calls made to the success
  callback.

`Text` holds `StartsWith`. `Protocol` holds the message and reply shapes
shared by the three contexts. On the JavaScript side these are untyped
objects, so which fields can be absent is stated explicitly with `Option`,
and JavaScript truthiness is written out (`Truthy`, `NonEmpty`). `Scenarios`
holds runs of the components through their public methods, proved from the
components' contracts alone.

## Model

| member | source | states |
|---|---|---|
| Text.StartsWith | chrome-extension/src/background/index.ts:14-16 | `startsWith` holds exactly when the prefix is no longer than the string and equals the string's leading part |
| Background.CanInject | chrome-extension/src/background/index.ts:11-20 | the click handler goes on exactly when the tab id is truthy, the url is non-empty, and the url starts with none of `chrome://`, `edge://`, `about:` |
| Background.Coordinator.EnsureContentScriptInjected | chrome-extension/src/background/index.ts:36-59 | a `'pong'` answer logs only the ping and succeeds; any other answer, or none, also injects `content/index.iife.js`, and the result is whether the injection succeeded; storage and requests are untouched |
| Background.Coordinator.OnIconClicked | chrome-extension/src/background/index.ts:9-33 | a tab failing the filter gets nothing. Otherwise the tab gets the ping, then the injection if needed, then the toggle unless the injection threw |
| Background.SessionEntries | chrome-extension/src/background/index.ts:146-149 | the entries a successful sign-in writes are exactly the four session keys, holding the reply's token, email, name and role |
| Background.StoredSession | chrome-extension/src/background/index.ts:146-149 | the four sequential `set` calls give the old store overlaid with the four session entries, so every session key is present |
| Background.AfterVerify | chrome-extension/src/background/index.ts:206-235 | the store `verifyToken` leaves. Keys outside the session are never touched. On a success body the token and role stay, and email and name take the body's values. On any other outcome exactly the session keys go. A token survives only a successful verification. A whole session stays whole |
| Background.AuthAnswer | chrome-extension/src/background/index.ts:240-258 | the `checkAuth` answer always has `success: true`, and both `isLoggedIn` and the presence of `user` are the verification result |
| Background.ReportedUserIsRefreshed | chrome-extension/src/background/index.ts:240-251 | after a successful verification, the user read back from the store is the service's email and name with the role stored before |
| Background.Coordinator.SignIn | chrome-extension/src/background/index.ts:129-203 | one POST with the credentials. On success the store becomes the old store plus the four session values and the answer is `{success: true, data}`. A non-success body leaves the store as it was and answers with the body's message. An exception leaves the store as it was and answers `'Uncaught error. Please try again'`. The tab gets the matching `signInResponse` exactly when its id is truthy. A whole session stays whole. The answer, store and tab events are also given as `SignInOutcome`, `SignInStore` and `SignInNotices` for the dispatcher |
| Background.Coordinator.VerifyToken | chrome-extension/src/background/index.ts:206-235 | with no (or an empty) token: false, with no request and no store change. Otherwise: one GET bearing the stored token; the result is true exactly on a success body, which rewrites only `email` and `name`; any other outcome removes all four keys. The new store is `AfterVerify` of the old one |
| Background.Coordinator.CheckAuth | chrome-extension/src/background/index.ts:238-267 | the answer always has `success: true`. `isLoggedIn` holds exactly when a token was stored and verification succeeded, and then the user is the refreshed email and name with the stored role. Otherwise the user is `null` and no token is left. The store and request changes are those of `verifyToken` (`AfterVerify`), and the answer is `AuthAnswer` of the verification result and the store read after it |
| Background.Coordinator.Logout | chrome-extension/src/background/index.ts:115-120 | removes exactly the four session keys and answers `{success: true}` |
| Background.Coordinator.OnStartup | chrome-extension/src/background/index.ts:104-106 | start-up is one `verifyToken`. With no token nothing changes and nothing is requested. With a token, one GET bearing it. A verified session keeps everything but the refreshed email and name. A rejected one loses exactly the four session keys, and other keys stay. A whole session stays whole |
| Background.Coordinator.OnMessage | chrome-extension/src/background/index.ts:109-126 | `action: 'signIn'` is tried first, then `type: 'LOGOUT'`, then `type: 'CHECK_AUTH'`. Each branch has its handler's answer, store, requests and tab events: `SignInOutcome`/`SignInStore`/`SignInNotices` with the POST; session removal with `{success: true}`; `AuthAnswer`/`AfterVerify` with the verify request, including the logged-in flag and the reported user. Any other message gets no response and changes nothing. A whole session stays whole |
| Background.LogoutIdempotent | chrome-extension/src/background/index.ts:115-120 | removing the session twice gives the same store as removing it once, with no session key left |
| Background.TransitionsKeepSessionWhole | chrome-extension/src/background/index.ts:146-232 | storing a sign-in, removing the session and refreshing email and name under a token each keep "all four keys or none" |
| Content.Clamp | pages/content/src/index.ts:202-210 | `max(0, min(v, limit))` is never negative. It stays within a non-negative limit, is `v` inside the range, 0 below it or when the limit is negative, and the limit above it |
| Content.ResizeAxis | pages/content/src/index.ts:252-262 | a proposed size of at least 200 is applied; a smaller one keeps the current size, so a size of at least 200 never drops below 200 |
| Content.Bridge.constructor | pages/content/src/index.ts:31-34 | the script starts with no iframe, the panel closed, no drag, no resize, zero offsets and sizes, and no handlers |
| Content.Bridge.OnRuntimeMessage | pages/content/src/index.ts:42-61 | `ping` answers `'pong'`. `togglePopup` answers `{success: true}` and flips `isPopupOpen`: closing leaves no container and no document handler, opening creates the container at 100, 100, 400 by 500. Both keep the channel open. Any other message returns false and changes nothing |
| Content.Bridge.CreatePopup | pages/content/src/index.ts:63-145 | a no-op when an iframe is referenced. Otherwise a fresh iframe on `popup/index.html` in a container at left 100, top 100, width 400, height 500, and the panel is open |
| Content.Bridge.RemovePopup | pages/content/src/index.ts:161-173 | no container and no iframe, panel closed, exactly the four drag and resize handlers off `document`; the drag and resize flags and the window `message` handlers are left as they were |
| Content.Bridge.OnFrameLoad | pages/content/src/index.ts:105-135 | every load of the iframe appends one more `message` handler bound to it |
| Content.Bridge.HandleFrameMessage | pages/content/src/index.ts:108-128 | a message whose source is not the handler's iframe window changes nothing. A non-empty `navigate` url is handled by prefix: under `chrome-extension://` it becomes the iframe's `src`, any other requests one tab (one `chrome.tabs.create` call). `closePopup` removes the panel. Nothing else changes |
| Content.Bridge.StartDragging | pages/content/src/index.ts:175-193 | with a container: dragging on, the offset is the pointer minus the container's corner, and both drag handlers are added; without one, nothing changes |
| Content.Bridge.MouseDownOnContainer | pages/content/src/index.ts:152-158 | a press with `offsetY < 40` starts a drag as `startDragging` does; any other press changes nothing |
| Content.Bridge.OnDrag | pages/content/src/index.ts:195-211 | only while dragging a present container. The new left is `Clamp(clientX - offset.x, innerWidth - width)`, the new top likewise, and the size is kept |
| Content.Bridge.StopDragging | pages/content/src/index.ts:213-217 | dragging off and exactly the two drag handlers removed |
| Content.Bridge.StartResizing | pages/content/src/index.ts:226-243 | with a container: resizing on, its size and the pointer recorded, both resize handlers added; without one, nothing changes |
| Content.Bridge.OnResize | pages/content/src/index.ts:245-263 | only while resizing a present container. Each axis independently becomes `ResizeAxis(old, original + travel)`, and the position is kept |
| Content.Bridge.StopResizing | pages/content/src/index.ts:265-269 | resizing off and exactly the two resize handlers removed |
| Content.Bridge.MouseDownOnResizeHandle | pages/content/src/index.ts:148-158 | a press on the 15 px handle, as delivered, starts the resize and, through the bubbling press, a drag as well, with all four handlers added |
| Content.Bridge.MouseDownOnResizeHandleContained | pages/content/src/index.ts:148 | the same press kept from the container starts only the resize; drag state and drag handlers are untouched |
| Content.Bridge.OnFrameLoadOnce | pages/content/src/index.ts:105-131 | adding the handler only on an iframe's first load keeps the handler list free of repeats and the current iframe in it |
| SignIn.Tally | pages/popup/src/signin.tsx:28 | one pass records exactly whether every character is in the class and whether a lowercase letter, an uppercase letter, a digit and a symbol occur |
| SignIn.ValidatePasswordMatchesPattern | pages/popup/src/signin.tsx:26-30 | `validatePassword` holds exactly when the regex matches: four lookaheads and at least eight characters of the class up to the end |
| SignIn.ValidatePasswordMeetsPolicy | pages/popup/src/signin.tsx:27-28 | `validatePassword` holds exactly for passwords of length at least 8, made only of `[A-Za-z0-9@$!%*?&]`, with at least one lowercase letter, uppercase letter, digit and symbol |
| SignIn.PatternFromPolicy | pages/popup/src/signin.tsx:28 | the regex and the stated policy accept the same strings, since the lookaheads' `.*` meets no line terminator in an accepted string |
| SignIn.LookaheadFromOccurrence | pages/popup/src/signin.tsx:28 | in a string without line terminators a lookahead `(?=.*[c])` succeeds exactly when some character of class c occurs |
| SignIn.ForeignCharacterRejected | pages/popup/src/signin.tsx:28 | any character outside the class rejects the password, whatever else it contains |
| SignIn.LowercaseAndDigitsRejected | pages/popup/src/signin.tsx:28 | `"abc12345"` is rejected |
| SignIn.MixedPasswordAccepted | pages/popup/src/signin.tsx:28 | `"Abc123!@"` is accepted |
| SignIn.SpaceAndHashRejected | pages/popup/src/signin.tsx:28 | a trailing space, or `#` in place of a symbol, rejects an otherwise strong password |
| SignIn.LoginForm.constructor | pages/popup/src/signin.tsx:8-14 | the form starts with empty credentials, not loading, no error, nothing sent |
| SignIn.LoginForm.HandleChange | pages/popup/src/signin.tsx:16-24 | only the named field takes the new value, and the error ends up empty |
| SignIn.LoginForm.HandleSubmit | pages/popup/src/signin.tsx:32-74 | a password failing the rule shows the fixed policy text, sends nothing and leaves `loading`. A valid one sends exactly one `signIn` message with the typed email and password, sets `loading` and clears the error. If sending throws, the fixed unexpected-error text is shown and loading ends |
| SignIn.LoginForm.HandleReply | pages/popup/src/signin.tsx:56-67 | loading ends. A success reply calls `onLoginSuccess` once when given and keeps the error. Any other reply, or none, shows its non-empty message or else `'Login failed. Please try again.'` |
| Scenarios.LogoutTwice | chrome-extension/src/background/index.ts:115-120 | two LOGOUTs both answer `{success: true}` and leave the same store, with no session key |
| Scenarios.SignInThenCheckAuth | chrome-extension/src/background/index.ts:144-166 | after a successful sign-in from an empty store, the store holds exactly the four values, and CHECK_AUTH reports logged in with the stored user and role |
| Scenarios.RejectedTokenClearsSession | chrome-extension/src/background/index.ts:222-234 | a rejected token empties the session store. A second CHECK_AUTH reports logged out without a second request |
| Scenarios.SubmitStrongPassword | pages/popup/src/signin.tsx:43-55 | a fresh form, filled and submitted with a valid password, has sent exactly one `signIn` message carrying what was typed |
| Scenarios.RejectedSignInReachesForm | pages/popup/src/signin.tsx:56-67 | a sign-in the service rejects with a message leaves the store as it was, and the form shows that message and stops loading |
| Scenarios.WeakPasswordStopsSubmit | pages/popup/src/signin.tsx:36-41 | submitting `"abc12345"` sends nothing and shows the policy text |
| Scenarios.ToggleTwiceLeavesNoListeners | pages/content/src/index.ts:50-58 | open, start a drag and a resize, toggle again: no document handler, no container, panel closed |
| Scenarios.ForeignFrameMessageIgnored | pages/content/src/index.ts:110 | `closePopup` and `navigate` from a window other than the iframe's leave the panel in place and request no tab |
| Scenarios.ResizeHandleAlsoDrags | pages/content/src/index.ts:148-158 | pressing the handle and moving 100 px right and down both grows the panel to 500 by 600 and moves it to 200, 200 |
| Scenarios.ResizeHandleContainedOnlyResizes | pages/content/src/index.ts:148 | with the press kept from the container, the panel only grows and stays at 100, 100 |
| Scenarios.ReloadedFrameHandlesTwice | pages/content/src/index.ts:105-131 | after one in-frame navigation the iframe has two `message` handlers, and one outside `navigate` is acted on by both, requesting the same tab twice |
| Scenarios.ReloadedFrameHandlesOnce | pages/content/src/index.ts:105-131 | with the handler added on the first load only, the same run keeps one handler and requests the tab once |

## Left out

- The HTTP calls (`fetch`, JSON parsing, the service's base url) are replaced by the reply inputs `SignInReply` and `VerifyReply`. A body that parses but lacks `data` or `user` makes the source throw, which is the `Threw` reply.
- `chrome.storage`, `chrome.tabs`, `chrome.scripting` and runtime messaging are modelled as a map and logs. Storage never fails, and every exception happens before the first write. Partial writes in the middle of the sign-in sequence are not modelled.
- Background.Coordinator.CheckAuth: the `catch` answering `{isLoggedIn: false, success: false}` cannot be reached here, because `verifyToken` catches its own failures and storage never fails; a failing storage `get` is not modelled.
- Background.Coordinator.OnMessage: returning `true` to keep the channel open is not modelled; a response is produced synchronously.
- The `onInstalled` listener only reads the token and logs; it is not modelled.
- The content script's `contentScriptReady` message at load has no handler in the worker, so it is not modelled.
- The 100 ms settle delay after injection, and any interleaving between worker, content script and form, are not modelled. Each handler runs to completion.
- Background.Coordinator.OnIconClicked: whether the toggle's `sendMessage` reaches a listener is not modelled; its rejection is caught and ignored.
- DOM construction, `injectStyles`, the `px` strings and element ids are not modelled, and the container's geometry is integers. `getBoundingClientRect`, `offsetWidth` and `offsetHeight` are taken as the container's `left`, `top`, `width` and `height`. Fractional pixels are not modelled.
- Content.Bridge.HandleFrameMessage: a `chrome.tabs.create` call is recorded as a requested url in `openedTabs`. Whether it succeeds is not modelled; content scripts are not normally given `chrome.tabs`, so the call may throw inside the handler. A removed iframe's `contentWindow` is `null` (`ContentWindow` gives None), so a stale handler accepts a message whose `source` is `null`; the model keeps that case as the source has it. No page among the files modelled here posts `navigate` or `closePopup`; the senders are not part of this model.
- Reading a key that is not stored gives `undefined`, which `Lookup` models as None.
- The iframe's `src` is the path `popup/index.html`; the absolute `chrome-extension://` url `chrome.runtime.getURL` makes of it is not modelled.
- The order in which `document` runs its `mousemove` handlers is not part of the state (a set). The scenario with both handlers calls them in the order they were added.
- `togglePasswordVisibility`, the form's markup, `Popup.tsx`, `protected.tsx`, `exampleThemeStorage` and `sampleFunction` are not part of this model.
- SignIn.IsLineTerminator: characters outside the Basic Multilingual Plane are single `char`s here, not UTF-16 surrogate pairs; this makes no difference to the rule, which rejects both.

## Findings

| source | as written | input that shows it | evidently intended | confidence | as-written member | corrected member |
|---|---|---|---|---|---|---|
| pages/content/src/index.ts:148-158 | a `mousedown` on the resize handle bubbles to the container's listener, whose `offsetY` is measured inside the 15 px handle and so is always below 40, so a drag starts too | open the panel, press the handle at (495, 595) and move to (595, 695) in a 1920 x 1080 viewport: the panel becomes 500 by 600 and also moves to 200, 200 | the handle only resizes, and the panel stays at 100, 100 | not executed | Content.Bridge.MouseDownOnResizeHandle, Scenarios.ResizeHandleAlsoDrags | Content.Bridge.MouseDownOnResizeHandleContained, Scenarios.ResizeHandleContainedOnlyResizes |
| pages/content/src/index.ts:105-131 | the iframe's `load` listener adds a window `message` handler on every load, including each software navigation within the iframe | open the panel, let the iframe load, send `navigate` to a `chrome-extension://` url (second load), then send `navigate` to an outside url: each handler runs once for the event, so there are two `chrome.tabs.create` calls for one request (with an in-frame url, two `iframe.src` assignments) | one handler per iframe, so one action per request | not executed | Content.Bridge.OnFrameLoad, Scenarios.ReloadedFrameHandlesTwice | Content.Bridge.OnFrameLoadOnce, Scenarios.ReloadedFrameHandlesOnce |
