# File-manager front end: a Dafny model of its state logic

This project models the client-side logic of a React/Redux file-manager front
end: the user signs in, lists their own files (or, as an administrator,
another user's), and uploads, renames, comments, downloads and deletes them.
The model covers the parts of the program that hold state or compute
something:

- the files-page tooltip controller, with the four capture handlers that track
  the active row anchor and its comment, and the click forwarding from the
  comment panel back to that anchor;
- the page's sequential gates:
  - the single global download gate (`downloadingId`);
  - the delete dialog's busy flag;
  - the edit dialog's change detector, its busy flag and its error aggregation;
  - the upload dialog;
- the two Redux slices:
  - `filesSlice`: the cached list and its fetch status;
  - `authSlice`: the signed-in user and the login/logout status;
  - the rejection envelope `{status, detail}` that their thunks build from a
    failed request;
- the pure helpers:
  - the CSRF cookie extractor and the request interceptor's header rule;
  - the timestamped file-name builder;
  - the listing query and the download URL;
  - the owner badge's fallbacks.

Each stateful part has two layers:

- **The specification.** A pure datatype of its state and pure step functions,
  one per handler or reducer case.
- **The implementation.** A class whose fields are the source's state (React
  state hooks, the `hoveredAnchorRef` ref, the slice fields). Its methods
  update those fields as the handlers do. Each method's `ensures` ties the new
  state to the step function applied to the old state.

The lemmas are stated about the step functions.

A promise is split into two steps. The handler that starts it is the first.
The settlement is a separate step that takes the outcome as a `Settled` value:
resolved with a value, or thrown with a `Thrown` reason. Dispatches, remote
calls and browser calls whose implementations lie in modules outside the
modelled files are recorded as `Effect` values in an `effects` log:

- `markDownloaded`, `updateFileMeta`, `removeFile`, `uploadFile`,
  `resetUploadState`;
- `downloadFile`, `patchRenameFile`, `patchCommentFile`;
- `saveBlob`, `window.open`.

Nothing is assumed about what these do, except where it decides a branch of
the handler. For the download settlement, how its `.then` callback ended is an
input: it ran through, `saveBlob` threw, or the `markDownloaded` dispatch threw.

Imported helpers whose bodies are not part of this model are passed in as
function values and left uninterpreted:

- `normalizeNullableText`;
- `normalizeCommentForApi`;
- `errorToMessage`.

The DOM is a finite tree. Nodes are numbered in document order, and the tree
records:

- which nodes are elements;
- which carry `data-file-name-anchor`;
- their `data-comment` values.

`closest` and `contains` are walks up the parent chain.

The page re-renders between events: rows appear with a fetch and go with a
delete, and an edit rewrites a row's `data-comment`. The ref and the tip
survive a re-render. A run of tooltip events is therefore also modelled with one
document per event (`StepRendered`).

What the code does, which the model follows:

- **Upload state.** `initialState` in `src/features/files/filesSlice.ts` has
  only `items`, `status` and `error`, and so does the model. The page reads
  `uploadStatus` and `uploadError` from the store, but no reducer in
  `filesSlice.ts` writes them.
- **Per-file mutations.** `filesSlice.ts` has no reducer for rename, comment,
  delete or download marks. The page imports `updateFileMeta`,
  `markDownloaded`, `removeFile` and `uploadFile` from it, and the model only
  records that they were dispatched.
- **Serialization points.** Besides the delete dialog's `deleteBusy` flag, the
  page gates downloads, globally through `downloadingId`, and edit submissions
  through `editBusy`.
- **The `loading` step.** The `fetchFiles` reducer accepts every action in
  every state; nothing forces a `loading` status before `succeeded` or
  `failed`. The model's `Reduce` is total in the same way.

Behaviours the model keeps as written:

- The name builder writes a stray `}` right after the name (`${name}}_…`).
- A `userId` of 0 fetches the caller's own list, because `getFiles` drops a
  falsy id. The page still shows the owner badge, not the upload button.
- The `tip` state is always an object, so the `filesTip--empty` class and the
  `tipFallback` label are never chosen.
- `buildDownloadUrl` ignores the `'preview'` argument it is given. "Open" and
  "download" therefore use one URL.
- The upload submit has no in-flight gate.
- `handleEditOpen` is not gated by `editBusy`.

## Model

| member | source | states |
|---|---|---|
| `JsString.Decimal` | src/utils/utils.ts:4 | `String(n)` for an integer: non-empty, and it starts with '-' exactly when n is negative |
| `JsString.NatDigitsValue` | src/utils/utils.ts:4 | the decimal digits of a natural number read back as that number |
| `JsString.DecimalInjective` | src/api/files.ts:12 | distinct integers have distinct decimal forms |
| `JsString.NatDigitsLength` | src/utils/utils.ts:4-13 | one digit below 10, two from 10 to 99, four from 1000 to 9999 |
| `JsString.PadStart` | src/utils/utils.ts:4 | `padStart` reaches the target length, or keeps a longer string as is |
| `JsString.PadStartShape` | src/utils/utils.ts:4 | the padding goes in front: the input ends the result and every added character is the fill |
| `JsString.TrimStartSpec` | src/pages/FilesPage/FilesPage.tsx:311 | `trimStart` keeps a suffix, drops only whitespace and stops at a non-whitespace character |
| `JsString.TrimEndSpec` | src/pages/FilesPage/FilesPage.tsx:311 | `trimEnd` keeps a prefix, drops only whitespace and stops at a non-whitespace character |
| `JsString.TrimIsTrimOf` | src/pages/FilesPage/FilesPage.tsx:311 | `trim()` is a slice with only whitespace cut off either end, and begins and ends with non-whitespace |
| `Utils.Pad` | src/utils/utils.ts:4 | a one-character `String(n)` gains one leading '0'; longer ones are unchanged |
| `Utils.BuildNameWithDateTime` | src/utils/utils.ts:1-14 | the builder itself: the name (default "name"), a stray "}", "_", then year, month, day, "_", hours, minutes, seconds; its properties are those of `NameIsPrefix`, `StampLength` and `MonthIsOneBased` |
| `Utils.PadLength` | src/utils/utils.ts:4 | a value from 0 to 99 pads to two characters |
| `Utils.PadTwoDigits` | src/utils/utils.ts:4 | a value from 0 to 99 pads to two digits that read back as the value |
| `Utils.NameIsPrefix` | src/utils/utils.ts:1-13 | the name (default "name") comes first, unchanged, followed by the stray '}' and '_' |
| `Utils.StampLength` | src/utils/utils.ts:4-13 | with a four-digit year and the other fields below 100, the result is 17 characters longer than the name |
| `Utils.MonthIsOneBased` | src/utils/utils.ts:7 | the month field at offsets 4-5 of the stamp is the zero-based month plus one, padded |
| `FilesApi.GetFilesRequest` | src/api/files.ts:3-9 | the path is always "/files/"; `user_id` is sent exactly for a present, non-zero id, and it is that id |
| `FilesApi.BuildDownloadUrl` | src/api/files.ts:11-13 | the URL is "/api/files/", then the id in decimal, then "/download/" |
| `FilesApi.DownloadUrlInjective` | src/api/files.ts:12 | distinct ids give distinct download URLs |
| `OwnerBadge.Badge` | src/components/OwnerBadge/OwnerBadge.tsx:15-18 | username is the owner's, else "id: " plus the id, else "—"; full name is the owner's, else "—" |
| `OwnerBadge.EmailRow` | src/components/OwnerBadge/OwnerBadge.tsx:31-37 | a mailto link exactly for a present, non-empty address |
| `OwnerBadge.EmailLinkTarget` | src/components/OwnerBadge/OwnerBadge.tsx:18-37 | a link is shown iff the owner has a non-empty e-mail; its text is that e-mail and its href is "mailto:" plus it |
| `OwnerBadge.FallbackNamesDistinct` | src/components/OwnerBadge/OwnerBadge.tsx:16 | without an owner, distinct ids give distinct user names, none of them "—" |
| `Http.ValueRun` | src/api/http.ts:4 | the capture `[^;]+` is the maximal run of non-';' characters from its start |
| `Http.FirstMatchFrom` | src/api/http.ts:4 | the regex search finds the leftmost position where "csrftoken=" is followed by a non-';' character |
| `Http.GetCsrfToken` | src/api/http.ts:3-6 | a token exists iff the pattern matches somewhere; it is non-empty, contains no ';', and is the value of the leftmost match |
| `Http.UnanchoredMatch` | src/api/http.ts:4 | the match is unanchored: "xcsrftoken=v" yields "v" |
| `Http.EmptyValueSkipped` | src/api/http.ts:4 | "csrftoken=" followed at once by ';' does not match; the next occurrence is taken |
| `Http.HeaderRule` | src/api/http.ts:17 | the header is added iff a token was found and the method is exactly "post", "patch" or "delete" |
| `Http.AttachesCsrf` | src/api/http.ts:17 | the interceptor's test: a non-empty token and a method that is exactly "post", "patch" or "delete"; `HeaderRule` states it |
| `Http.Intercept` | src/api/http.ts:14-22 | the same config comes back; its headers gain `X-CSRFToken` (the token) exactly under the header rule, and nothing else changes |
| `Http.RequestConfig.constructor` | src/api/http.ts:14 | the configuration has the given method, URL and headers |
| `Rejection.ToRejectedPayload` | src/features/files/filesSlice.ts:24-34 | the status is the response's status, or none when no axios response exists; the detail is the server's string detail, else the operation's default (the same mapping as src/features/auth/authSlice.ts:36-45 and 59-69) |
| `FilesSlice.ForwardedUserId` | src/features/files/filesSlice.ts:21 | `userId` is forwarded only when the argument is an object with a `userId` key, and then it is that value |
| `FilesSlice.FetchFilesRequest` | src/features/files/filesSlice.ts:21-22 | the fetch lists "/files/" and filters by user exactly when the argument carries a present, non-zero `userId` |
| `FilesSlice.FetchFilesSettled` | src/features/files/filesSlice.ts:19-35 | a resolved listing gives `fulfilled` with the files; a failure gives `rejected` with the envelope and "Failed to load files" |
| `FilesSlice.Reduce` | src/features/files/filesSlice.ts:42-58 | the `extraReducers` for `fetchFiles`; `ActionEstablishesConsistency`, `ItemsAreLastFulfilled` and `FetchRound` state what they do |
| `FilesSlice.ActionEstablishesConsistency` | src/features/files/filesSlice.ts:43-57 | from any state, every action leaves error set exactly when status is failed |
| `FilesSlice.ConsistentAfterAnySequence` | src/features/files/filesSlice.ts:7-57 | after any action sequence from `initialState`, error is set iff status is failed |
| `FilesSlice.ItemsAreLastFulfilled` | src/features/files/filesSlice.ts:43-57 | the items are the payload of the last fulfilled action, or the earlier items when there was none |
| `FilesSlice.ItemsFromInitialState` | src/features/files/filesSlice.ts:7-57 | from `initialState` the items are the last fulfilled payload, or empty |
| `FilesSlice.FetchRound` | src/features/files/filesSlice.ts:43-57 | a fetch that succeeds replaces the items in payload order with succeeded and no error; one that fails keeps them, with failed and the envelope's detail |
| `FilesSlice.FilesStore.constructor` | src/features/files/filesSlice.ts:7-11 | the store starts as `initialState`: no items, idle, no error |
| `FilesSlice.FilesStore.Pending` | src/features/files/filesSlice.ts:43-46 | status loading, error cleared, items untouched |
| `FilesSlice.FilesStore.Fulfilled` | src/features/files/filesSlice.ts:48-52 | items become the payload, status succeeded, error cleared |
| `FilesSlice.FilesStore.Rejected` | src/features/files/filesSlice.ts:54-57 | status failed, error the payload's detail or "Failed to load files", items untouched |
| `FilesSlice.FilesStore.Apply` | src/features/files/filesSlice.ts:42-58 | the store's new state is the reducer applied to the old one |
| `AuthSlice.LoginSettled` | src/features/auth/authSlice.ts:32-47 | a resolved login gives `fulfilled` with the response's user; a failure gives `rejected` with the envelope and "Login failed" |
| `AuthSlice.LogoutSettled` | src/features/auth/authSlice.ts:56-70 | a resolved logout gives `fulfilled`; a failure gives `rejected` with the envelope and "Logout failed" |
| `AuthSlice.Reduce` | src/features/auth/authSlice.ts:76-114 | `resetAuthError` and the `extraReducers` for login and logout; `ActionKeepsErrorMeansFailed`, `UserIsSessionUser`, `FailedLoginClearsUser` and `FailedLogoutKeepsUser` state what they do |
| `AuthSlice.ActionKeepsErrorMeansFailed` | src/features/auth/authSlice.ts:77-113 | from any state, every action leaves an error only next to a failed status |
| `AuthSlice.ErrorMeansFailedAfterAnySequence` | src/features/auth/authSlice.ts:20-114 | after any action sequence from `initialState`, an error implies status failed |
| `AuthSlice.FailedWithoutError` | src/features/auth/authSlice.ts:77-97 | the converse fails: pending, rejected login, `resetAuthError` leaves failed with no error |
| `AuthSlice.UserIsSessionUser` | src/features/auth/authSlice.ts:82-113 | the user is the one set by the last fulfilled login, or none after a rejected login or fulfilled logout; other actions keep it |
| `AuthSlice.FailedLogoutKeepsUser` | src/features/auth/authSlice.ts:99-113 | a failed logout keeps the user, with failed and the detail or "Logout failed" |
| `AuthSlice.FailedLoginClearsUser` | src/features/auth/authSlice.ts:82-97 | a failed login clears the user, with failed and the detail or "Login failed" |
| `AuthSlice.AuthStore.constructor` | src/features/auth/authSlice.ts:20-24 | the store starts as `initialState`: no user, idle, no error |
| `AuthSlice.AuthStore.ResetAuthError` | src/features/auth/authSlice.ts:77-79 | only the error is cleared |
| `AuthSlice.AuthStore.Pending` | src/features/auth/authSlice.ts:82-85 | login or logout pending: status loading, error cleared, user untouched (also lines 99-102) |
| `AuthSlice.AuthStore.LoginFulfilled` | src/features/auth/authSlice.ts:87-91 | status succeeded, user the payload, error cleared |
| `AuthSlice.AuthStore.LoginRejected` | src/features/auth/authSlice.ts:93-97 | status failed, user cleared, error the detail or "Login failed" |
| `AuthSlice.AuthStore.LogoutFulfilled` | src/features/auth/authSlice.ts:104-108 | status idle, user and error cleared |
| `AuthSlice.AuthStore.LogoutRejected` | src/features/auth/authSlice.ts:110-113 | status failed, error the detail or "Logout failed", user kept |
| `AuthSlice.AuthStore.Apply` | src/features/auth/authSlice.ts:76-114 | the store's new state is the reducer applied to the old one |
| `Dom.Closest` | src/pages/FilesPage/FilesPage.tsx:138 | `closest` returns an anchor at or above the node and the nearest one; none when no anchor contains the node |
| `Dom.Contains` | src/pages/FilesPage/FilesPage.tsx:136 | `contains`: the node is the ancestor itself or lies below it (also line 173); `ContainsOrder` and `Closest`'s contract state what the tooltip needs of it |
| `Dom.DataComment` | src/pages/FilesPage/FilesPage.tsx:148 | `dataset.comment ?? null`: the attribute's value when present, else none |
| `Tooltip.OnMouseOver` | src/pages/FilesPage/FilesPage.tsx:132-150 | `handleMouseOverCapture`; the four `MouseOver…` lemmas state its cases |
| `Tooltip.ClearIfActive` | src/pages/FilesPage/FilesPage.tsx:140 | `if (hoveredAnchorRef.current) clearTip()` (also lines 153 and 175); `MouseOverNoAnchor` and `BlurRule` state it |
| `Tooltip.OnMouseLeave` | src/pages/FilesPage/FilesPage.tsx:152-154 | `handleMouseLeave`; stated in `BlurRule` |
| `Tooltip.OnFocus` | src/pages/FilesPage/FilesPage.tsx:156-167 | `handleFocusCapture`; stated in `FocusNoAnchor` and `FocusAlwaysResets` |
| `Tooltip.OnBlur` | src/pages/FilesPage/FilesPage.tsx:169-176 | `handleBlurCapture`; stated in `BlurRule` |
| `Tooltip.ForwardClick` | src/pages/FilesPage/FilesPage.tsx:178-186 | the anchor `forwardCommentClickToAnchor` clicks; stated in `HoverThenForward` |
| `Tooltip.MouseOverInPanel` | src/pages/FilesPage/FilesPage.tsx:136 | mouse-over inside the comment panel changes neither the anchor nor the tip |
| `Tooltip.MouseOverSameAnchor` | src/pages/FilesPage/FilesPage.tsx:144 | mouse-over whose nearest anchor is already active changes nothing |
| `Tooltip.MouseOverNoAnchor` | src/pages/FilesPage/FilesPage.tsx:138-142 | mouse-over outside every anchor leaves no anchor and no comment |
| `Tooltip.MouseOverNewAnchor` | src/pages/FilesPage/FilesPage.tsx:146-149 | mouse-over a different anchor makes it active with its normalised `data-comment` |
| `Tooltip.FocusNoAnchor` | src/pages/FilesPage/FilesPage.tsx:160-161 | focus outside every anchor leaves the state untouched |
| `Tooltip.FocusAlwaysResets` | src/pages/FilesPage/FilesPage.tsx:160-166 | focus on an anchor sets it and its comment even when it is already active |
| `Tooltip.BlurRule` | src/pages/FilesPage/FilesPage.tsx:152-176 | blur into the box is a no-op; blur out of it or to nowhere clears the state, and so does mouse-leave |
| `Tooltip.StepKeepsConsistent` | src/pages/FilesPage/FilesPage.tsx:126-176 | every handler keeps "no active anchor implies no comment" and keeps the active node an anchor |
| `Tooltip.ConsistentAfterAnyEvents` | src/pages/FilesPage/FilesPage.tsx:99-176 | after any event sequence from the initial state, both invariants hold |
| `Tooltip.StepKeepsConsistentAnyDoc` | src/pages/FilesPage/FilesPage.tsx:126-176 | in whatever document the event fires, every handler keeps "no active anchor implies no comment" |
| `Tooltip.ConsistentAcrossRenders` | src/pages/FilesPage/FilesPage.tsx:99-176 | after any events from the initial state, each in its own re-rendered document, a comment is kept only with an active anchor |
| `Tooltip.HoverThenForward` | src/pages/FilesPage/FilesPage.tsx:178-186 | after pointing beneath anchor a, a comment-panel click is forwarded to a |
| `Tooltip.MoveWithinAnchor` | src/pages/FilesPage/FilesPage.tsx:132-150 | once an anchor is active, pointing anywhere between the first target and that anchor keeps the state |
| `Tooltip.TipFallback` | src/pages/FilesPage/FilesPage.tsx:120-124 | the fallback label by list status; `FallbackNeverShown` states that it is never chosen |
| `Tooltip.FallbackNeverShown` | src/pages/FilesPage/FilesPage.tsx:434-447 | the tip is always an object, so the label is the hover hint, never `tipFallback`, and the empty class is never added |
| `Tooltip.TipClass` | src/pages/FilesPage/FilesPage.tsx:433 | the tip box's class list, with `filesTip--empty` for a missing tip; `FallbackNeverShown` states it |
| `Tooltip.TipLabel` | src/pages/FilesPage/FilesPage.tsx:445-447 | the hover hint for a tip object, else `tipFallback`; `FallbackNeverShown` states it |
| `Tooltip.PanelShown` | src/pages/FilesPage/FilesPage.tsx:434-443 | the comment panel is rendered for a non-empty comment; `PanelShowsActiveComment` states when that happens |
| `Tooltip.PanelShowsActiveComment` | src/pages/FilesPage/FilesPage.tsx:99-186 | after any events from the initial state, the tip is the active anchor's normalised `data-comment`, and the comment panel is rendered only while an anchor is active |
| `Tooltip.TipController.ClearTip` | src/pages/FilesPage/FilesPage.tsx:126-129 | anchor and comment both cleared |
| `Tooltip.TipController.constructor` | src/pages/FilesPage/FilesPage.tsx:99-101 | no active anchor, a tip with no comment, no clicks yet |
| `Tooltip.TipController.MouseOverCapture` | src/pages/FilesPage/FilesPage.tsx:132-150 | the ref and the tip become the mouse-over step of the old ones |
| `Tooltip.TipController.MouseLeave` | src/pages/FilesPage/FilesPage.tsx:152-154 | the ref and the tip become the mouse-leave step of the old ones |
| `Tooltip.TipController.FocusCapture` | src/pages/FilesPage/FilesPage.tsx:156-167 | the ref and the tip become the focus step of the old ones |
| `Tooltip.TipController.BlurCapture` | src/pages/FilesPage/FilesPage.tsx:169-176 | the ref and the tip become the blur step of the old ones |
| `Tooltip.TipController.ForwardCommentClick` | src/pages/FilesPage/FilesPage.tsx:178-186 | exactly one `click()` on the active anchor, or none without one |
| `DownloadGate.GateIsGlobal` | src/pages/FilesPage/FilesPage.tsx:225 | while any download is in flight, a click on any file does nothing |
| `DownloadGate.Start` | src/pages/FilesPage/FilesPage.tsx:224-230 | the click step; `GateIsGlobal` and `StartFetches` state it |
| `DownloadGate.Settle` | src/pages/FilesPage/FilesPage.tsx:230-246 | the settle step, given the fetch outcome and whether the callback ran through, `saveBlob` threw or the `markDownloaded` dispatch threw; `SettleRule` states it |
| `DownloadGate.StartFetches` | src/pages/FilesPage/FilesPage.tsx:224-230 | with the gate open: error cleared, gate set to that file, one fetch of it |
| `DownloadGate.SettleRule` | src/pages/FilesPage/FilesPage.tsx:230-246 | the blob is saved iff the fetch succeeded; `markDownloaded` is dispatched iff the fetch succeeded and `saveBlob` returned; no error is shown iff the fetch succeeded and the whole `.then` callback ran through, otherwise the fixed message; the gate is open afterwards |
| `DownloadGate.StepsKeepValid` | src/pages/FilesPage/FilesPage.tsx:224-247 | `downloadingId` names exactly the file whose fetch is in flight, and no error is shown while it is |
| `DownloadGate.DownloadController.constructor` | src/pages/FilesPage/FilesPage.tsx:81-82 | no download in flight and no error |
| `DownloadGate.DownloadController.HandleDownload` | src/pages/FilesPage/FilesPage.tsx:224-230 | state and effects become the click step of the old ones |
| `DownloadGate.DownloadController.DownloadSettled` | src/pages/FilesPage/FilesPage.tsx:230-246 | state and effects become the settle step of the old ones, for the fetch outcome and how the `.then` callback ended |
| `DeleteDialog.DeleteErrorMessage` | src/pages/FilesPage/FilesPage.tsx:277-283 | the message is the rejection's string `detail` if it has one, else the fixed message |
| `DeleteDialog.Open` | src/pages/FilesPage/FilesPage.tsx:250-254 | the open step; `OpenDeleteModal` states it |
| `DeleteDialog.Close` | src/pages/FilesPage/FilesPage.tsx:256-261 | the close step, a no-op while busy; `BusyGate` states it |
| `DeleteDialog.Confirm` | src/pages/FilesPage/FilesPage.tsx:264-270 | the confirm step; `BusyGate` and `ConfirmRound` state it |
| `DeleteDialog.Settle` | src/pages/FilesPage/FilesPage.tsx:270-287 | the settle step; `ConfirmRound` states it |
| `DeleteDialog.BusyGate` | src/pages/FilesPage/FilesPage.tsx:256-265 | while busy, close and confirm do nothing; without a target, confirm does nothing |
| `DeleteDialog.ConfirmRound` | src/pages/FilesPage/FilesPage.tsx:264-287 | confirm removes the target once and sets busy; success closes and clears the target; failure keeps it with the message; busy false afterwards |
| `DeleteDialog.DeleteController.constructor` | src/pages/FilesPage/FilesPage.tsx:84-87 | closed, no target, not busy, no error |
| `DeleteDialog.DeleteController.OpenDeleteModal` | src/pages/FilesPage/FilesPage.tsx:250-254 | opens on the given file with no error |
| `DeleteDialog.DeleteController.CloseDeleteModal` | src/pages/FilesPage/FilesPage.tsx:256-261 | the state becomes the close step of the old one |
| `DeleteDialog.DeleteController.HandleDeleteConfirm` | src/pages/FilesPage/FilesPage.tsx:264-270 | state and effects become the confirm step of the old ones |
| `DeleteDialog.DeleteController.DeleteSettled` | src/pages/FilesPage/FilesPage.tsx:270-287 | the state becomes the settle step of the old one |
| `EditDialog.SubmitIgnored` | src/pages/FilesPage/FilesPage.tsx:305-306 | with no file being edited, or while busy, submit does nothing |
| `EditDialog.Open` | src/pages/FilesPage/FilesPage.tsx:291-296 | the open step: the file, its name, its comment or "", no errors |
| `EditDialog.Close` | src/pages/FilesPage/FilesPage.tsx:298-302 | the close step, a no-op while busy |
| `EditDialog.SetName` | src/pages/FilesPage/FilesPage.tsx:418 | the name field's `onChange` |
| `EditDialog.SetComment` | src/pages/FilesPage/FilesPage.tsx:419 | the comment field's `onChange` |
| `EditDialog.PlanFor` | src/pages/FilesPage/FilesPage.tsx:308-315 | the change detector: trimmed name and normalised comment against the file's; `SubmitUnchanged` and `SubmitCalls` state what follows from it |
| `EditDialog.Submit` | src/pages/FilesPage/FilesPage.tsx:304-351 | the submit step; `SubmitIgnored`, `SubmitUnchanged` and `SubmitCalls` state it |
| `EditDialog.Finish` | src/pages/FilesPage/FilesPage.tsx:353-366 | the `allSettled` continuation once no call is pending; `RoundOutcome` states it |
| `EditDialog.SettleRename` | src/pages/FilesPage/FilesPage.tsx:329-338 | the rename call settled; `SettleEffects` and the round lemmas state it |
| `EditDialog.SettleComment` | src/pages/FilesPage/FilesPage.tsx:341-350 | the comment call settled; `SettleEffects` and the round lemmas state it |
| `EditDialog.SubmitUnchanged` | src/pages/FilesPage/FilesPage.tsx:308-321 | trimmed name and normalised comment both unchanged: no remote call, and the editor closes |
| `EditDialog.SubmitCalls` | src/pages/FilesPage/FilesPage.tsx:314-351 | one rename call with the trimmed name iff the name changed, one comment call iff the comment changed, nothing else; busy iff a call was made |
| `EditDialog.RoundOutcome` | src/pages/FilesPage/FilesPage.tsx:353-366 | in either settlement order: not busy afterwards, closed iff no call failed, one error per failed call |
| `EditDialog.RenameThenComment` | src/pages/FilesPage/FilesPage.tsx:329-366 | settling rename first, then comment, ends idle with one error per failure |
| `EditDialog.CommentThenRename` | src/pages/FilesPage/FilesPage.tsx:329-366 | settling comment first, then rename, ends idle with one error per failure |
| `EditDialog.SettleEffects` | src/pages/FilesPage/FilesPage.tsx:329-350 | a settlement dispatches `updateFileMeta` with the server's returned name (or comment) exactly when that call was pending and resolved, and keeps the other call pending |
| `EditDialog.RoundDispatches` | src/pages/FilesPage/FilesPage.tsx:329-366 | in either settlement order, the store gets the server's new name iff the rename was made and resolved, and the server's new comment iff the comment call was made and resolved; a failed call dispatches nothing, so a successful rename survives a failed comment update |
| `EditDialog.StepsKeepValid` | src/pages/FilesPage/FilesPage.tsx:291-366 | every handler keeps the busy flag up exactly while a submitted call is pending |
| `EditDialog.EditController.constructor` | src/pages/FilesPage/FilesPage.tsx:89-93 | nothing being edited, empty fields, not busy, no errors |
| `EditDialog.EditController.HandleEditOpen` | src/pages/FilesPage/FilesPage.tsx:291-296 | the state becomes the open step: the file, its name, its comment or "", no errors |
| `EditDialog.EditController.HandleEditClose` | src/pages/FilesPage/FilesPage.tsx:298-302 | the state becomes the close step (no-op while busy) |
| `EditDialog.EditController.SetEditName` | src/pages/FilesPage/FilesPage.tsx:418 | only the name field changes |
| `EditDialog.EditController.SetEditComment` | src/pages/FilesPage/FilesPage.tsx:419 | only the comment field changes |
| `EditDialog.EditController.HandleEditSubmit` | src/pages/FilesPage/FilesPage.tsx:304-351 | state and effects become the submit step of the old ones |
| `EditDialog.EditController.FinishIfSettled` | src/pages/FilesPage/FilesPage.tsx:353-366 | once no call is pending: the errors shown if any, else closed; busy cleared |
| `EditDialog.EditController.RenameSettled` | src/pages/FilesPage/FilesPage.tsx:329-338 | state and effects become the rename-settle step of the old ones |
| `EditDialog.EditController.CommentSettled` | src/pages/FilesPage/FilesPage.tsx:341-350 | state and effects become the comment-settle step of the old ones |
| `UploadDialog.SubmitRule` | src/pages/FilesPage/FilesPage.tsx:201-211 | no file, no upload; otherwise one upload of that file with the normalised comment; the form is unchanged |
| `UploadDialog.Open` | src/pages/FilesPage/FilesPage.tsx:190-195 | the open step; `OpenUploadModal` states it |
| `UploadDialog.Close` | src/pages/FilesPage/FilesPage.tsx:197-199 | the close step |
| `UploadDialog.SetFile` | src/pages/FilesPage/FilesPage.tsx:397 | the file input's `onChange` |
| `UploadDialog.SetComment` | src/pages/FilesPage/FilesPage.tsx:398 | the comment field's `onChange` |
| `UploadDialog.Submit` | src/pages/FilesPage/FilesPage.tsx:201-211 | the submit step; `SubmitRule` and `NoInFlightGate` state it |
| `UploadDialog.Settle` | src/pages/FilesPage/FilesPage.tsx:212-219 | the settle step; `SettleRule` states it |
| `UploadDialog.NoInFlightGate` | src/pages/FilesPage/FilesPage.tsx:201-220 | two submits before anything settles start two identical uploads |
| `UploadDialog.SettleRule` | src/pages/FilesPage/FilesPage.tsx:212-219 | success ends closed and empty; failure changes nothing |
| `UploadDialog.UploadController.constructor` | src/pages/FilesPage/FilesPage.tsx:77-79 | closed, no file chosen, empty comment, no upload in flight |
| `UploadDialog.UploadController.OpenUploadModal` | src/pages/FilesPage/FilesPage.tsx:190-195 | form reset, upload state reset dispatched, dialog open |
| `UploadDialog.UploadController.CloseUploadModal` | src/pages/FilesPage/FilesPage.tsx:197-199 | only the dialog closes |
| `UploadDialog.UploadController.SetUploadingFile` | src/pages/FilesPage/FilesPage.tsx:397 | only the chosen file changes |
| `UploadDialog.UploadController.SetUploadComment` | src/pages/FilesPage/FilesPage.tsx:398 | only the comment changes |
| `UploadDialog.UploadController.HandleUploadSubmit` | src/pages/FilesPage/FilesPage.tsx:201-211 | effects grow by the submit step's, and one more upload is in flight per call |
| `UploadDialog.UploadController.UploadSettled` | src/pages/FilesPage/FilesPage.tsx:212-219 | state and effects become the settle step of the old ones; one fewer upload in flight |
| `FilesPage.MountFetch` | src/pages/FilesPage/FilesPage.tsx:104-113 | the mount effect: the `fetchFiles` dispatch for the `userId` parameter, if any; its properties are those of `MountFilter` and `ZeroUserIdQuirk` |
| `FilesPage.IsOwnList` | src/pages/FilesPage/FilesPage.tsx:69 | the own list is exactly the one without a `userId` parameter; `ZeroUserIdQuirk` states its consequence |
| `FilesPage.MountFilter` | src/pages/FilesPage/FilesPage.tsx:104-113 | at most one fetch; none exactly for a non-finite id; the own list fetches with no argument and a parsed id with `{ userId }`; the request lists "/files/" and filters by user exactly for a non-zero parsed id |
| `FilesPage.ZeroUserIdQuirk` | src/pages/FilesPage/FilesPage.tsx:66-113 | `?userId=0` dispatches a different fetch from the own list's and is not treated as the own list, yet it makes the same listing request |
| `FilesPage.OpenOrDownload` | src/pages/FilesPage/FilesPage.tsx:115-118 | one `window.open` effect |
| `FilesPage.PreviewIsDownloadUrl` | src/pages/FilesPage/FilesPage.tsx:115-118 | the opened URL is the download endpoint for the id, since the `'preview'` mode it passes does not change the URL; distinct files open distinct URLs |

## Left out

- Network and browser I/O are left out. This covers the axios instance, the
  bodies of `getFiles`, `login` and `logout`, `document.cookie`, `window.open`,
  `saveBlob` and `new Date()`. Cookie strings, date parts, promise outcomes and
  the ISO timestamp are parameters instead.
- `normalizeNullableText`, `normalizeCommentForApi`, `errorToMessage`,
  `formatBytes` and `formatDate` are imported helpers whose bodies are not part
  of this model. The first three are uninterpreted function parameters; the
  last two only format markup and are not modelled.
- The reducers behind `markDownloaded`, `updateFileMeta`, `removeFile`,
  `uploadFile` and `resetUploadState` are not part of this model. Their
  dispatches appear only as effects.
- Concurrency is not modelled. Promise settlements are steps applied one at a
  time, and React state updates take effect at once. The edit dialog's
  `Promise.allSettled` becomes two settle steps in either order. The order of
  its error messages depends on completion order, so only their number is
  stated.
- `Number(userIdRaw)` and `Number.isFinite` parse floating-point numbers. The
  parameter is modelled as absent, a finite integer, or not finite.
- `e.preventDefault()` and `e.stopPropagation()` in the click forwarder are
  event plumbing and are not modelled.
- The `instanceof HTMLElement` test on the `closest` result is not modelled
  separately: every anchor is taken to be an element.
- `commentRef.current` is a parameter of the mouse-over handler.
- `Tooltip.StepAll`, `Tooltip.ConsistentAfterAnyEvents` and
  `Tooltip.PanelShowsActiveComment` keep one document fixed across the whole
  event sequence. Two of their facts need that: the active node is an anchor
  of the document, and the tip is its current `data-comment`. After a re-render
  that removes the row or rewrites its comment, the ref and the tip can be
  stale until the next event. `Tooltip.ConsistentAcrossRenders` states only
  what survives re-renders.
- `EditDialog.SettleRename` and `EditDialog.SettleComment` take the
  `dispatch(updateFileMeta(…))` in each `.then` to return normally. A throw
  there would reach the `.catch` and add a failure message; the reducer
  behind it is outside the modelled files, so the model does not capture
  that path.
- Markup, CSS, routing, the login page and the navigation bar are presentation
  glue and are not modelled.
- `JsString.Decimal` gives the plain digits for every integer. JavaScript
  switches to exponent notation above 10^21, which file ids and clock fields
  never reach.
- `Http.Intercept` compares the method as given. It does not model axios
  lowercasing the method before interceptors run.
- `RejectedPayload` carries the optional field errors of the shared type. The
  thunks in `filesSlice.ts` and `authSlice.ts` always leave them absent.
- `FileDTO.original_name` is a non-null string, so the `?? ''` fallbacks on it
  disappear.
