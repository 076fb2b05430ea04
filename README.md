# File-sharing dashboard: a Dafny model of its client core

This project models the browser side of a small file-sharing service. Three
scripts are covered:

- `js/api.js` wraps every call to the PHP backend.
- `js/ui.js` provides the toast notifications and the button-loading helper.
- `js/dashboard.js` drives the file manager: folder navigation, selection,
  bulk delete, the share dialog and the sequential upload pipeline with its
  conflict prompt.

The modules:

- `Wrappers`: `Option`.
- `JsStrings`: the JavaScript built-ins the scripts use, namely `String(n)`
  and `parseInt(s, 10)` on exact integers (the source's doubles agree with
  them up to 2^53 in magnitude), `trim`, `includes`, `indexOf` and
  `String.prototype.replace` with a plain pattern.
- `Json`: parsed JSON values, JavaScript truthiness, member access `v.key`
  (including the TypeError on `null.key`) and `String(v)`.
- `Api`: three pieces.
  - `BuildRequest` says what fetch is asked for.
  - `Classify` says what `api.request` returns or throws, for every status
    and body.
  - `Session` is a class over `localStorage` and `window.location`. Its
    `Request`, `Get`, `Post`, `Delete` and `Upload` methods handle the
    sign-out on a 401 outside the sign-in pages.
- `Ui`: toast durations and icons. `ToastItem` is a class holding the
  countdown state the toast's handlers share, with the invariant that
  hovering pauses the countdown. `ToastHost` holds `Toast.init`.
  `Button` and `SetBtnLoading` cover the loading helper.
- `Upload`: the pipeline `processUploadQueue`.
  - `Process(b, k)` is a specification fold: the state after the first `k`
    files.
  - The imperative worker loop (`UploadWorker`, `HandleFile`) is proved equal
    to that fold.
  - Lemmas state what the pipeline promises for each file and for the batch.
    These cover the one retry after a prompt, the prompts serialised on
    `activeConflicts`, the counted and failed files, and the rejected chain.
- `Naming`: the quote escaping of display names spliced into inline
  handlers. It includes a model of single-quoted JavaScript string literals
  (section 12.9.4 of ECMA-262), the defect it shows, and a corrected escaping
  proved to round-trip through that literal. The HTML attribute around the
  literal is not modelled.
- `Sharing`: the share dialog's pure parts. These are the custom-expiry
  check, the share URL, the request body, the reply handling and the note
  field's 500-character cap.
- `Workspace`: the dashboard's module-level state, as class `Dashboard`:
  - the current folder;
  - the breadcrumb path;
  - the trash view;
  - the selections;
  - the share and rename items.

  Its handlers keep the navigation invariant and the selection display
  invariant.

Everything outside the script is an explicit input:

- The server's responses are parameters, as `FetchOutcome` or
  `ApiResult`.
- `JSON.parse` is a partial-function parameter.
- The user's answers to the conflict prompt are parameters, as `Prompt` in a
  per-file `Script`.
- Time is given as the `now` argument of the toast handlers.
- For the page's elements, a flag says whether each one exists.
- Requests are recorded, not performed.

Behaviours of the code worth noting, which the model keeps:

- A retry that meets a second 409 still counts the file as completed. The
  conflict marker is a returned value, not an error.
- A first attempt or a retry that ends in the sign-out redirect resolves to
  `undefined`. It is counted as completed.
- Once a callback on `activeConflicts` throws (its prompt rejects or its
  retry fails), the chain stays rejected. Every later conflict in the batch
  then fails at once: no prompt and no retry.
- "Transfer failed" toasts are shown as each file fails, not after the
  batch.
- The 409 is turned into a conflict marker by `attemptUpload`, not by the
  request wrapper. The wrapper throws an error carrying the status for every
  non-2xx status whose body parses to a non-null value, except the sign-out
  401. A body that is not JSON throws the invalid-JSON error without a
  status (so a 409 with such a body is not a conflict), and a `null` body
  throws a TypeError without a status.
- The `Authorization` header is sent only when the stored token is present
  and non-empty.
- The upload selection dialog opens before the queue runs. The queue only
  starts when its start button is pressed.

## Model

| member | source | states |
|---|---|---|
| Api.BuildRequest | js/api.js:5-23 | The URL is the API base followed by the endpoint, with credentials included. The bearer header is present exactly when a non-empty token is stored. The JSON content type is set exactly when the data is not a FormData. The body is the FormData itself, or the JSON of a truthy value, or absent. |
| Api.Classify | js/api.js:25-56 | A failed fetch and an unparsable body are errors. The call returns exactly on a 2xx with a parsable body. It redirects exactly on a 401 outside the sign-in pages. Only errors built from a parsed non-2xx body carry a status, and that status is the HTTP status. |
| Api.ErrorCarriesStatus | js/api.js:37-49 | A non-2xx response other than the sign-out 401 throws an error carrying the HTTP status exactly when its body parses to a non-null value. The error's message is the body's truthy `message` or the default text. |
| Api.UnauthorizedOnAuthPage | js/api.js:38-49 | On a sign-in page a 401 is an ordinary error with status 401, not a redirect. |
| Api.UploadForm | js/api.js:71-78 | A FormData is sent as it is. Any other value is wrapped as the single field `file`. |
| Api.Session.constructor | js/api.js:13-13 | The session starts with the given storage and location. |
| Api.Session.Request | js/api.js:5-57 | The request sent is `BuildRequest` with the token read from storage, and the result is `Classify`. The redirect alone removes `user` and `token` and goes to the login page; every other outcome leaves the session unchanged. |
| Api.Session.Get | js/api.js:59-61 | A GET without a body, with the same result and effect as `Request`. |
| Api.Session.Post | js/api.js:63-65 | A POST of the data, with the same result and effect as `Request`. |
| Api.Session.Delete | js/api.js:67-69 | A DELETE of the data, with the same result and effect as `Request`. |
| Api.Session.Upload | js/api.js:71-78 | A POST whose body is always multipart (the `UploadForm` of the data) and that never carries a JSON content type. |
| Ui.ToastDuration | js/ui.js:12-20 | Errors stay 10 s and warnings 7 s whatever was requested; every other type stays the requested time. |
| Ui.ShortcutDurations | js/ui.js:92-95 | The shortcuts give 5 s to success and info, 10 s to error and 7 s to warn. |
| Ui.ToastIcon | js/ui.js:22-29 | A known type gets its own icon and any other type gets the info icon. |
| Ui.ToastItem.constructor | js/ui.js:44-56 | A new toast has its duration and icon, the full time remaining, and a timer armed for now plus the duration. |
| Ui.ToastItem.MouseEnter | js/ui.js:59-63 | Hovering clears the timer, pauses the progress bar and keeps the time left, which is the old deadline minus now. |
| Ui.ToastItem.MouseLeave | js/ui.js:65-71 | Leaving restarts the clock. The timer is re-armed for the remaining time exactly when some time remains; otherwise the toast stays until clicked. |
| Ui.ToastItem.Click | js/ui.js:74-77 | A click clears the timer and dismisses the toast; start, remaining time, hover and progress state stay as they were. |
| Ui.ToastItem.TimerFires | js/ui.js:51-53 | The timer running out dismisses the toast; start, remaining time, hover and progress state stay as they were. |
| Ui.ToastItem.Dismiss | js/ui.js:80-89 | Dismissing marks the toast and registers the once-only listener, and changes nothing else (timer, clock, hover, progress). A toast already dismissing is left unchanged. |
| Ui.ToastItem.AnimationEnd | js/ui.js:85-89 | The listener runs once, whatever the animation. It removes the toast exactly when it was listening and the animation is `toastSlideOut`. The timer, the clock, the hover and the progress state stay as they were. |
| Ui.ToastHost.constructor | js/ui.js:3-4 | The page starts with the given number of toast containers. |
| Ui.ToastHost.Init | js/ui.js:3-10 | A container is created only when there is none. |
| Ui.ToastHost.Show | js/ui.js:12-56 | `show` ensures a container exists and returns a fresh, valid toast of that type, icon and duration, started now with the full duration remaining, its timer armed, not hovered, not paused and with no listener. |
| Ui.InitTwice | js/ui.js:3-10 | Initialising a page twice leaves exactly one container. |
| Ui.DismissTwice | js/ui.js:80-90 | Dismissing twice is the same as dismissing once, and does not remove the toast. |
| Ui.Button.constructor | js/ui.js:100-101 | A button starts enabled, not loading, with no saved label. |
| Ui.LoadingHtml | js/ui.js:106-106 | The loading label: the spinner followed by the custom text, or `Processing...` when it is missing or empty. |
| Ui.RestoredHtml | js/ui.js:110-110 | The restored label: the saved HTML, or `Continue` when none or an empty one was saved. |
| Ui.SetBtnLoading | js/ui.js:100-112 | A null button is left alone. Loading saves the label, disables the button and shows the spinner with the custom text or `Processing...`. Restoring enables the button and shows the saved label, or `Continue` when none (or an empty one) was saved. |
| Ui.LoadingRoundTrip | js/ui.js:102-111 | Loading and then restoring gives back the original label (`Continue` for an empty one), enabled and with no loading class. |
| Ui.LoadingTwiceLosesLabel | js/ui.js:103-110 | Two loading calls before a restore save the spinner over the label, so the restore shows the spinner. |
| Upload.RunFile | js/dashboard.js:686-720 | Defines one worker turn: a thrown first attempt fails; a non-conflict counts; a conflict on a rejected chain fails unprompted; otherwise the prompt decides skip, retry with the answer, or failure that rejects the chain. Its properties are the lemmas below. |
| Upload.Process | js/dashboard.js:673-721 | Defines the pipeline state after the first k files: claimed indices, `completed`, the chain state, the failure list and one record per file. |
| Upload.Sent | js/dashboard.js:688-713 | Defines the uploads of one turn: the plain attempt, then the retry with its resolution if one was sent. |
| Upload.StartNotice | js/dashboard.js:679-679 | The info toast that announces the batch with its size. |
| Upload.FailureNotice | js/dashboard.js:719-719 | The error toast naming a failed file. |
| Upload.DoneNotice | js/dashboard.js:733-733 | The success toast with the number of completed files. |
| Upload.FailureNotices | js/dashboard.js:717-720 | The failure toasts of a run of files, in file order; `FailureNoticesNameFailures` states which files they name. |
| Upload.AttemptOutcome | js/dashboard.js:694-699 | `attemptUpload` returns the conflict marker exactly for an error of status 409. It rethrows every other error. Any returned value is passed on, and the redirect gives `undefined`. |
| Upload.AttemptForm | js/dashboard.js:689-692 | The FormData holds the file first. `folder_id` follows when the folder is truthy. `resolution` comes last exactly when a resolution is given, with its text. |
| Upload.ProcessNext | js/dashboard.js:685-721 | One worker iteration claims the next index. It adds one to `completed` for a counted file and appends the index to the failures for a failed file. The chain state is the one the file leaves. |
| Upload.CountsPartition | js/dashboard.js:702-720 | Every file ends exactly one way: counted, skipped or failed. |
| Upload.ClaimedInOrder | js/dashboard.js:681-686 | Indices are claimed as 0, 1, ..., k-1, each exactly once. |
| Upload.CompletedWithinBatch | js/dashboard.js:702-716 | `completed` never exceeds the number of files taken. |
| Upload.FailuresCounted | js/dashboard.js:717-720 | There is one failure entry per failed file. |
| Upload.FailuresAreFailedRuns | js/dashboard.js:717-720 | Every failure entry is the index of a file that failed. |
| Upload.FailuresIncreasing | js/dashboard.js:717-720 | Failure entries appear in increasing file order. |
| Upload.FailedRunsListed | js/dashboard.js:717-720 | Every failed file is on the failure list. |
| Upload.RunOfFile | js/dashboard.js:684-721 | The record of file i is one iteration's outcome for that file, from the chain state left by the files before it. |
| Upload.StaysRejected | js/dashboard.js:707-713 | A file's turn never clears a rejected `activeConflicts` chain. |
| Upload.RejectionIsSticky | js/dashboard.js:707-713 | Once rejected, the chain stays rejected for the rest of the batch. |
| Upload.RunFileRejects | js/dashboard.js:702-720 | A turn leaves the chain rejected exactly when it was already rejected or the file was prompted and then failed. |
| Upload.RejectionCause | js/dashboard.js:707-713 | The chain is rejected exactly when some earlier file was prompted and then failed. |
| Upload.NonConflictCounts | js/dashboard.js:714-716 | A first attempt that neither throws nor reports a conflict counts the file, sends nothing more and prompts no one. |
| Upload.ThrownFirstAttemptFails | js/dashboard.js:703-720 | A first attempt that throws anything but a 409 fails the file with no prompt and does not count it. The loop goes on, and the list of failures grows by that index. |
| Upload.BrokenPromptFails | js/dashboard.js:705-719 | On a conflict with the chain intact, a conflict modal whose page lacks an element it uses makes the prompt reject. The file is asked about, gets no retry, fails with a toast, and the chain becomes rejected. |
| Upload.SkipSendsNoRetry | js/dashboard.js:705-713 | On a conflict with the chain intact, a skip (or no modal on the page) prompts, sends no retry, counts nothing and keeps the chain intact. |
| Upload.ResolutionSendsOneRetry | js/dashboard.js:705-713 | On a conflict with the chain intact, replace or duplicate sends one retry with that resolution. A retry that returns anything (a second 409 included) counts the file. A retry that throws fails the file and rejects the chain. |
| Upload.ConflictAfterRejectionFails | js/dashboard.js:705-720 | After the chain is rejected, every later conflicting file fails with no prompt and no retry. |
| Upload.TurnSends | js/dashboard.js:688-713 | A turn sends the plain upload first. It sends a second upload only after a prompt answered replace or duplicate, and that upload carries the answer. |
| Upload.AtMostOneRetry | js/dashboard.js:688-713 | Every file of a batch sends one or two uploads, two only after a prompt answered replace or duplicate. |
| Upload.ScenarioNoCollisions | js/dashboard.js:673-736 | Three accepted files are all counted, with no failures and no prompts. |
| Upload.ScenarioReplace | js/dashboard.js:673-736 | A collision answered with replace yields one prompt and one retry carrying `replace`, and both files are counted. |
| Upload.ScenarioSkip | js/dashboard.js:673-736 | A collision answered with skip counts nothing and sends no retry. |
| Upload.ScenarioNetworkFailure | js/dashboard.js:673-736 | A failed transfer does not stop the batch: the second file is still counted. |
| Upload.ScenarioRejectedChain | js/dashboard.js:673-736 | A failed retry makes the next colliding file fail without a prompt. |
| Upload.FailureNoticesNameFailures | js/dashboard.js:717-720 | The j-th "Transfer failed" toast names the j-th file on the failure list. |
| Upload.HandleFile | js/dashboard.js:686-720 | One turn of the worker, computed step by step, is exactly the record `RunFile` defines. |
| Upload.UploadWorker | js/dashboard.js:684-722 | The worker loop reaches the state `Process(batch, n)` after all n files, having shown one failure toast per failed file, in order. |
| Upload.ProcessUploadQueue | js/dashboard.js:673-736 | It ends in `Process(batch, n)`. It shows the start toast, the failure toasts, and a success toast that is present exactly when some file was completed. The listing is reloaded exactly when some file was completed. |
| Naming.EscapeQuotes | js/dashboard.js:198-198 | The escaped name is the name plus one character per quote, and never starts with a quote. |
| Naming.EscapeQuotesOnlyInserts | js/dashboard.js:198-198 | Escaping only inserts a backslash before each quote: dropping those gives the name back. |
| Naming.EscapedQuotesArePreceded | js/dashboard.js:198-198 | Every quote in the escaped name has a backslash before it. |
| Naming.TrailingBackslashBreaksLiteral | js/dashboard.js:198-202 | As written, a name ending in a backslash escapes the closing quote of the handler's literal. The literal is no longer well formed. |
| Naming.BackslashSequenceIsReinterpreted | js/dashboard.js:198-202 | As written, the name `\n` reaches `navigateToFolder` as a line feed, not as the name. |
| Naming.EscapeForJsString | js/dashboard.js:198-202 | The corrected escaping never shortens the name. |
| Naming.EscapeForJsStringRoundTrip | js/dashboard.js:198-202 | With the corrected escaping, the handler's JavaScript string literal, once the attribute has been read, denotes exactly the display name, for every name. |
| Naming.EscapingsAgree | js/dashboard.js:198-198 | On names without backslashes or line breaks, the corrected escaping equals the original. |
| Naming.EscapeQuotesSoundWithoutBackslash | js/dashboard.js:198-202 | As written, the JavaScript string literal (once the attribute has been read) denotes the name for every name without a backslash or a line break. |
| Sharing.ExpiryChoice | js/dashboard.js:573-583 | Any non-custom choice is sent as selected. A custom duration is rejected exactly when `parseInt` gives NaN or a number below 1. An accepted one is sent as `String()` of the parsed number followed by the unit, not as the text typed. |
| Sharing.ExpiryOfTypedNumber | js/dashboard.js:575-583 | A typed number from 1 to 2^53 is sent as its plain decimal form followed by the unit. This holds with leading white space, a `+` sign, leading zeros, and any non-digit text after the digits. The number reads back from the sent value. |
| Sharing.ExpiryDropsPadding | js/dashboard.js:575-583 | `+007` with unit `days` is sent as `7days`. |
| Sharing.ExpiryRejections | js/dashboard.js:575-581 | `0`, `-3`, an empty field and `abc` are rejected. |
| Sharing.NegativeParses | js/dashboard.js:576-576 | `parseInt` reads `-n` as the negative number, for n up to 2^53. |
| Sharing.ExpiryIgnoresTrailingText | js/dashboard.js:575-583 | ` 12abc` with unit `hours` is sent as `12hours`. |
| Sharing.ShareBase | js/dashboard.js:608-608 | The API base with its first `/api/` replaced by `/s/`; `ShareBaseValue` gives its value. |
| Sharing.ShareBaseValue | js/dashboard.js:608-608 | The share base is the API base with `/api/` replaced by `/s/`. |
| Sharing.ShareUrl | js/dashboard.js:608-608 | The link is the share base followed by the token as text. |
| Sharing.ShareOutcomeFor | js/dashboard.js:595-620 | A link is shown exactly when the reply is a value with a truthy `share_token`. A value whose token is missing or falsy (an empty string included) gives the "No share token" error. The redirect's `undefined` and a `null` reply give a TypeError. A thrown error shows its message, or the default text when that is empty. |
| Sharing.ShareErrorsAreNonEmpty | js/dashboard.js:603-620 | Every error text the dialog shows is non-empty. |
| Sharing.ShareRequest | js/dashboard.js:585-601 | The body has exactly the fields id, type, expiry, password and note, holding the item id, its type, the expiry and the password as given. The note is the trimmed note, or null exactly when that trims to nothing. |
| Sharing.NoteInput | js/dashboard.js:544-549 | The counter shows the typed length and turns red above 450. The value is the first 500 characters of the typed text (all of it when at most 500 were typed), and it is unchanged exactly when at most 500 were typed. |
| Sharing.NoteCapIdempotent | js/dashboard.js:544-549 | A capped note is left as it is by the next input, where the counter shows at most 500. |
| Workspace.FolderParam | js/dashboard.js:84-85 | The folder parameter is empty exactly for the root (null) and for the id 0. |
| Workspace.LoadEndpoints | js/dashboard.js:81-87 | `loadFiles` asks for three listings: the folders and the files under the folder parameter, each with `&trash=true` exactly in trash view, and always `files.php?all=true`. |
| Workspace.SelectionLabel | js/dashboard.js:327-327 | The count label; `SelectionLabelMeaning` states what it reads as. |
| Workspace.SelectionLabelMeaning | js/dashboard.js:327-327 | The selection label starts with the count, which reads back, and is plural exactly above one. |
| Workspace.ToggleCards | js/dashboard.js:337-352 | After the loop, every card's id has joined (or left) the selection of its kind, and nothing else changed. |
| Workspace.PermanentFlag | js/dashboard.js:821-832 | In the trash a bulk delete is always permanent. Elsewhere it is permanent exactly when the box exists and is ticked. |
| Workspace.BulkDeletePrompt | js/dashboard.js:358-364 | No dialog opens exactly when nothing is selected. |
| Workspace.BulkDeletes | js/dashboard.js:366-380 | Defines the DELETEs a confirmed bulk delete sends; `BulkDeletesShape` states their shape. |
| Workspace.BulkOutcomeOf | js/dashboard.js:366-389 | Defines the outcome: the first request that threw decides the error toast, otherwise the wipe completes; `BulkOutcomeMeaning` states it. |
| Workspace.BulkDeletesShape | js/dashboard.js:366-380 | A files request is sent exactly for a non-empty file selection. A folders request is sent exactly for a non-empty folder selection when the files request did not throw. Each request carries its whole set and the permanent flag, and files go first. |
| Workspace.BulkOutcomeMeaning | js/dashboard.js:366-389 | The wipe completes exactly when no request that was sent threw. |
| Workspace.Dashboard.constructor | js/dashboard.js:15-21 | The script starts at the root, outside the trash, with nothing selected and no share or rename item. |
| Workspace.Dashboard.UpdateSelectionUI | js/dashboard.js:320-333 | The bulk bar is shown exactly when something is selected, with the count label. With nothing selected, the select-all box is cleared. |
| Workspace.Dashboard.SetSelection | js/dashboard.js:308-317 | The selections are replaced and shown, and nothing else changes. |
| Workspace.Dashboard.LoadFiles | js/dashboard.js:64-87 | Both selections are emptied and the three listings of the current folder are requested. |
| Workspace.Dashboard.ShowTrash | js/dashboard.js:106-115 | Enters the trash view: the path is the single trash entry, there is no current folder, and the trash listings are requested. |
| Workspace.Dashboard.NavigateToRoot | js/dashboard.js:117-126 | Returns to the root: the path is the root entry, there is no current folder, and the root listings are requested. |
| Workspace.Dashboard.NavigateToFolder | js/dashboard.js:128-133 | In the trash view nothing changes. Otherwise the folder becomes current, its entry is pushed and its listings are requested. |
| Workspace.Dashboard.NavigateToBreadcrumb | js/dashboard.js:135-148 | A missing entry changes nothing. The trash entry shows the trash. Any other entry truncates the path after it and makes its folder current. |
| Workspace.Dashboard.ToggleItemSelection | js/dashboard.js:304-318 | Without a card nothing happens. Otherwise the item joins or leaves the selection of its kind, and the other selection is unchanged. |
| Workspace.Dashboard.ToggleSelectAll | js/dashboard.js:335-354 | Every card's item joins (or leaves) the selection of its kind. |
| Workspace.Dashboard.BulkDelete | js/dashboard.js:357-392 | With nothing selected or no confirmation, nothing is sent. Otherwise the requests and the outcome are those of `BulkDeletes` and `BulkOutcomeOf`. A wipe empties both selections and reloads the listing; a failure keeps the selections. |
| Workspace.Dashboard.OpenShareModal | js/dashboard.js:524-525 | The share item is set; the navigation state, both selections and their display, the request log and the rename item stay as they were. |
| Workspace.Dashboard.CloseShareModal | js/dashboard.js:554-558 | The share item is cleared; the navigation state, both selections and their display, the request log and the rename item stay as they were. |
| Workspace.Dashboard.OpenRenameModal | js/dashboard.js:484-485 | The rename item is set; the navigation state, both selections and their display, the request log and the share item stay as they were. |
| Workspace.Dashboard.CloseRenameModal | js/dashboard.js:496-500 | The rename item is cleared; the navigation state, both selections and their display, the request log and the share item stay as they were. |
| Workspace.Dashboard.GenerateShareLink | js/dashboard.js:565-624 | Nothing is sent without a share item or with a rejected custom duration. Otherwise the request is `ShareRequest` of the item, the expiry, the password and the note, and the dialog shows `ShareOutcomeFor` the reply. |
| Workspace.Dashboard.UploadBatch | js/dashboard.js:634-665 | An empty drop, or a dialog never started, does nothing. Otherwise the batch runs in the current folder. Its toasts are the start notice, one error per failed file in order, and the success notice exactly when some file was completed. The listing is reloaded exactly then. |
| Workspace.EnterAndReturn | js/dashboard.js:128-148 | Entering two folders and going back one breadcrumb leaves the path one entry longer, with the first folder current. |

## Left out

- HTML rendering is not modelled. This covers the item cards, the breadcrumbs, the empty states, the action menu and the loader's spinner and error markup. It also covers `loadFiles`'s `silent` flag, which only changes markup. The model keeps what `loadFiles` does to the state: it clears the selection and requests three listings.
- Workspace.Dashboard.LoadFiles: always records its three GETs. The source returns before them when the `#fileList` element is missing.
- `formatSize`, `updateStorageStats` and the storage meter are not modelled. They compute in floating point.
- `js/bg-animation.js` and `js/security-deterrents.js` are not part of this model. They are page decoration outside the core.
- `fetch`, `response.text()` and `JSON.parse` are parameters. JSON numbers are integers.
- Sharing.ExpiryChoice: parses and prints the custom duration as an exact integer. The source's `parseInt` gives a double, so a value above 2^53 is rounded (`9007199254740993` is sent as `9007199254740992hours`), one from 10^21 is written in exponent form (`1e+21hours`), and one of about 309 digits or more is sent as `Infinityhours`. `ExpiryOfTypedNumber` and `NegativeParses` are stated only up to 2^53 for that reason.
- Naming.EscapeForJsStringRoundTrip: stops at the JavaScript string literal. The literal sits inside a double-quoted `onclick` attribute, and neither escaping touches `"` or `&`: a name with `"` ends the attribute, and `&quot;` or `&#39;` in a name are decoded before the JavaScript parser runs. The same holds for `EscapeQuotesSoundWithoutBackslash`.
- Lengths are counted in characters, not UTF-16 code units. This matters for the note cap and the counter.
- The user never answering the conflict prompt is not modelled. The source then waits forever.
- Navigation while an upload is in flight is not modelled. `currentFolderId` is read afresh at every attempt, but the model fixes the folder for the whole batch.
- Workspace.Dashboard.BulkDelete: takes both selections as they were when `bulkDelete()` opened the dialog. The source's callback reads them when the user confirms, and reads the folder selection again after the files request returns. A change in between, such as an upload batch finishing and calling `loadFiles(true)`, which clears both sets, is not modelled.
- Selections are sets. The order in which `Array.from` lists the ids is not modelled.
- Where the JavaScript engine chooses a message (a TypeError, a failed fetch), the text is `None`.
- `Icons` are looked up as an own-property map. Type names such as `constructor` or `toString`, which would find inherited properties of the object literal, are not modelled.
- Upload.HandleFile: does not build the FormData objects. The forms a turn sends are given by `Sent`, and `TurnSends` and `AtMostOneRetry` state their properties.
- These handlers are not modelled: `submitRename`, `createNewFolder`, `deleteFile`, `restoreFile`, `deleteFolder`, `restoreFolder`, `logout`, `showItemActions`, `copyShareLink`, the QR code, `toggleCustomExpiry` and the modal open/close helpers other than share and rename. They are one request each, or pure presentation.
- The session guard at load time (redirect without a stored user) is not modelled.
- A handler that throws because a page element it uses is missing is not modelled. Examples are `toggleSelectAll` without the list and `generateShareLink` without its form elements. The exception is `showConflictModal`, whose missing elements are the `PromptBroken` outcome.
- Workspace.Dashboard.ToggleSelectAll: sets the select-all box to the clicked value. The cards' own checkboxes and `selected` classes are markup.
- Concurrency beyond the fixed limit of one worker is not modelled. With one worker the interleaving of awaits cannot change the result, because every await is on the worker's own calls.

## Findings

| source | as written | input that shows it | evidently intended | confidence | as-written member | corrected member |
|---|---|---|---|---|---|---|
| js/dashboard.js:198 | Only single quotes are escaped before a display name is spliced into `navigateToFolder(id, '<name>')`. | A folder named `a\` (the literal no longer closes) or `\n` (it arrives as a line feed). | The JavaScript literal, once the attribute is read, denotes exactly the folder's name: backslashes, quotes and line breaks all escaped. | not executed | Naming.TrailingBackslashBreaksLiteral | Naming.EscapeForJsStringRoundTrip |
