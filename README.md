# faceBoukSale point-of-sale client: keypad, face payment and QR scanner

This project models the three pieces of sequential logic in the faceBoukSale
React Native sale client and proves properties of them in Dafny 4.11.

- **Dashboard** (`Dashboard.dfy`, with the keypad functions in `AmountEntry.dfy`).
  The sale screen holds the amount as a string. Four keypad handlers edit it:
  digit, decimal point, delete and clear. The screen resolves the merchant
  context (receiver and associate ids) from the local cache first and falls
  back to a profile lookup. It opens the face-capture modal. When capture
  succeeds it stores the facial id and offers a Continue button. Each press of
  Continue sends one face-payment request built from the current state.
  The component is the class `Dashboard.Dashboard`. Every method states the
  complete new state as an update of the old one (`State()`). The keypad edits
  are the pure functions `AfterDigit`, `AfterPoint`, `AfterBackspace` and
  `AfterReset`. The invariant they keep is `WellFormed`: only digits and ".",
  at most one ".", never first, and at most 3 characters after it.
- **QR scanner** (`QrScan.dfy`). A `scanned` latch makes the modal ignore
  further barcode events. Each processed payload goes through an ordered chain:
  parse, required fields, positive amount, valid timestamp, known type. The
  first failing check decides the error. `Validate` is the chain. `Checks` and
  `FirstFailure` restate it as "the first failing entry of an ordered list".
  `ScanStep` and `ScanAll` describe the latch, and the class `QrScanner` has
  the latch and the reset buttons.
- **Face capture** (`FaceCapture.dfy`). The embedded page runs one SDK call and
  posts messages to the app. The catch block of `startFaceIO` is written to map
  error codes 1 to 14 to fixed texts and to fall back to a per-mode default.
  That block runs inside the page, where no `mode` is declared. So code 2 and
  an empty SDK message make it throw a ReferenceError. The catch block of
  `initFaceIO` then posts that error's message with no code (`ReadsPageMode`,
  `PageTerminal`). `ErrorMessage` and `TerminalMessage` are the table with the
  mode bound, as evidently intended. The app's `handleFaceIOMessage` turns
  each message into an ordered list of effects (`Dispatch`): setFaceId,
  onSuccess, onClose, alerts. The class `FaceCaptureModal` records those
  effects as they happen and keeps the alerts still open, whose buttons are
  the only ones that can be pressed. `CapturePosts` lists the messages one run posts as
  the page is written, and `IntendedCapturePosts` lists them with the mode
  bound. `HookedCapturePosts` lists the same run as delivered once the injected
  console hooks are active.

Library behaviour is abstract. `JSON.parse`, `parseFloat` and
`new Date(v).getTime()` are function-valued fields of `QrScan.JsLib`. Storage
contents, the profile lookup, the storage write and the payment response are
constructor and method parameters (`CacheSlot`, `ProfileFetch`, `writeOk`, `PaymentSettled(ok)`).
Alerts are recorded values with their buttons, not presentation.

The code has no amount > 0 check before face capture opens. It has no capture
session identifiers that would discard stale events, and no deferred-callback
presenter queue. The QR button of the dashboard (`Screen/Home/Dashoard.js:237-240`)
has no press handler, so the dashboard never uses the QR scanner and sends no
QR payment. Nothing here claims any of these.

## Model

| member | source | states |
|---|---|---|
| `AmountEntry.FirstIndex` | faceBoukSale/src/Screen/Home/Dashoard.js:115 | the position of the first occurrence of a character (or the length when absent): every earlier position differs, and the position holds the character |
| `AmountEntry.KeypadKey` | faceBoukSale/src/components/Keypad.js:41-72 | the keys the keypad sends: a digit key carries a single character "0" to "9" |
| `AmountEntry.SecondPiece` | faceBoukSale/src/Screen/Home/Dashoard.js:115 | `amount.split(".")[1]`: the text between the first "." and the next one or the end, and `undefined` when there is no "." |
| `AmountEntry.DigitBlocked` | faceBoukSale/src/Screen/Home/Dashoard.js:115 | the digit guard: the amount contains "." and the piece after it has at least 3 characters |
| `AmountEntry.AfterDigit` | faceBoukSale/src/Screen/Home/Dashoard.js:114-117 | a digit press leaves the amount unchanged or appends exactly `num`; on a well-formed amount it is unchanged exactly when 3 fractional characters are already there |
| `AmountEntry.GuardMeansFullFraction` | faceBoukSale/src/Screen/Home/Dashoard.js:115 | on a well-formed amount the guard `includes(".") && split(".")[1].length >= 3` holds exactly when the text after the separator has 3 characters |
| `AmountEntry.AfterPoint` | faceBoukSale/src/Screen/Home/Dashoard.js:120-125 | after a decimal press the amount contains "." and has the old amount as a prefix. An amount that already has "." is unchanged, "" becomes "0.", and any other amount gets "." appended |
| `AmountEntry.AfterBackspace` | faceBoukSale/src/Screen/Home/Dashoard.js:127-130 | delete yields a prefix one character shorter, and "" on "" |
| `AmountEntry.AfterReset` | faceBoukSale/src/Screen/Home/Dashoard.js:132-135 | clear yields "" from any amount |
| `AmountEntry.DigitKeepsWellFormed` | faceBoukSale/src/Screen/Home/Dashoard.js:114-117 | a digit press on a well-formed amount keeps it well formed |
| `AmountEntry.PointKeepsWellFormed` | faceBoukSale/src/Screen/Home/Dashoard.js:120-125 | a decimal press keeps the amount well formed |
| `AmountEntry.BackspaceKeepsWellFormed` | faceBoukSale/src/Screen/Home/Dashoard.js:127-130 | delete keeps the amount well formed |
| `AmountEntry.KeyKeepsWellFormed` | faceBoukSale/src/components/Keypad.js:41-72 | any key the keypad sends keeps the amount well formed |
| `AmountEntry.RunKeepsWellFormed` | faceBoukSale/src/Screen/Home/Dashoard.js:114-135 | any sequence of keypad presses keeps a well-formed amount well formed |
| `AmountEntry.KeypadAmountsAreWellFormed` | faceBoukSale/src/components/Keypad.js:41-72 | from "", after any keypad sequence the amount holds only digits and at most one ".", never first, with at most 3 characters after it |
| `AmountEntry.BackspaceUndoesDigit` | faceBoukSale/src/Screen/Home/Dashoard.js:114-130 | delete undoes an accepted single-character digit press |
| `AmountEntry.BackspaceUndoesPoint` | faceBoukSale/src/Screen/Home/Dashoard.js:120-130 | delete undoes a decimal point added to a non-empty amount without one |
| `Dashboard.Dashboard.FormData` | faceBoukSale/src/Screen/Home/Dashoard.js:38-44 | the request carries exactly the current faceId and amount, method "FACEID", receiverId = receiver and associateId = associate |
| `Dashboard.Dashboard.constructor` | faceBoukSale/src/Screen/Home/Dashoard.js:26-36 | the component starts with empty amount, faceId and context, modal closed, uninitialized |
| `Dashboard.ProfileErrorAlert` | faceBoukSale/src/Screen/Home/Dashoard.js:85-88 | the profile error alert: "Error" / "Failed to load business profile. Please try again." |
| `Dashboard.FaceSuccessAlert` | faceBoukSale/src/Screen/Home/Dashoard.js:165-170 | the face success alert: "Success" / "Face enrollment completed successfully!", whose Continue button is modelled by `PressContinue` |
| `Dashboard.PaymentAlert` | faceBoukSale/src/Screen/Home/Dashoard.js:140-150 | the payment response alert: "Success" / "Payment completed successfully!" on success, "Error" / "Payment failed. Please try again later." on failure |
| `Dashboard.InitStep` | faceBoukSale/src/Screen/Home/Dashoard.js:48-97 | one run of `initializeData` on the whole state: nothing once initialized; the cached record; an unreadable cache, a token failure, a failed lookup or a failed write gives the error alert; a successful lookup and write stores and uses the record |
| `Dashboard.InitStepOutcome` | faceBoukSale/src/Screen/Home/Dashoard.js:48-97 | one run of `initializeData` ends initialized exactly when it was already, the cache held a record, or nothing was cached and both the lookup and the write succeeded; afterwards the context shown is the cached one, and a fresh lookup puts the business id in the receiver and the user id in the associate, both in the cache and on screen. A lookup is issued exactly when the run finds nothing cached and the token yields a user id. The error alert is raised exactly when a run fails. Loading ends false. Amount, face id, modal and payments are untouched |
| `Dashboard.InitStepSettles` | faceBoukSale/src/Screen/Home/Dashoard.js:94-96 | once a run has succeeded, every later run leaves the state as it is, so the profile is not looked up again |
| `Dashboard.Dashboard.InitializeData` | faceBoukSale/src/Screen/Home/Dashoard.js:48-97 | the state after the mount effect is exactly `InitStep` of the state before it, and the shown context stays the cached one |
| `Dashboard.Dashboard.UseCached` | faceBoukSale/src/Screen/Home/Dashoard.js:52-58 | a cached record becomes receiver and associate, and the component is initialized |
| `Dashboard.Dashboard.LoadProfile` | faceBoukSale/src/Screen/Home/Dashoard.js:61-82 | with nothing cached, a lookup is issued unless the token fails, and the state becomes `InitStep` of the old state |
| `Dashboard.Dashboard.StoreProfile` | faceBoukSale/src/Screen/Home/Dashoard.js:68-82 | after a successful lookup and write, the cache holds `{receiverId: business id, associateId: userId}`, the context is set and the component is initialized |
| `Dashboard.Dashboard.ReportProfileError` | faceBoukSale/src/Screen/Home/Dashoard.js:83-91 | a failure raises "Failed to load business profile. Please try again." and loading ends |
| `Dashboard.Dashboard.NumberPress` | faceBoukSale/src/Screen/Home/Dashoard.js:114-118 | the amount becomes `AfterDigit` of the old amount; nothing else changes |
| `Dashboard.Dashboard.DecimalPress` | faceBoukSale/src/Screen/Home/Dashoard.js:120-125 | the amount becomes `AfterPoint` of the old amount; nothing else changes |
| `Dashboard.Dashboard.DeletePress` | faceBoukSale/src/Screen/Home/Dashoard.js:127-130 | the amount becomes `AfterBackspace` of the old amount; nothing else changes |
| `Dashboard.Dashboard.ClearPress` | faceBoukSale/src/Screen/Home/Dashoard.js:132-135 | the amount becomes ""; nothing else changes |
| `Dashboard.Dashboard.Press` | faceBoukSale/src/Screen/Home/Dashoard.js:217-222 | a keypad key reaches its handler and changes only the amount |
| `Dashboard.Dashboard.FaceIDPress` | faceBoukSale/src/Screen/Home/Dashoard.js:153-155 | opens the face-capture modal and changes nothing else |
| `Dashboard.Dashboard.FaceIDClose` | faceBoukSale/src/Screen/Home/Dashoard.js:257 | closes the modal and changes nothing else |
| `Dashboard.Dashboard.FaceIDSuccess` | faceBoukSale/src/Screen/Home/Dashoard.js:162-171 | sets faceId to the facial id, closes the modal and raises the success alert with Continue; no request is sent |
| `Dashboard.Dashboard.FacePayment` | faceBoukSale/src/Screen/Home/Dashoard.js:137-139 | appends exactly one request, the form data of the state before the call |
| `Dashboard.Dashboard.PressContinue` | faceBoukSale/src/Screen/Home/Dashoard.js:157-170 | pressing Continue sends exactly one request, built from the current state, and closes the offer |
| `Dashboard.Dashboard.PaymentSettled` | faceBoukSale/src/Screen/Home/Dashoard.js:140-150 | a response raises the payment success or failure alert and sends nothing |
| `Dashboard.Dashboard.OnFaceEffect` | faceBoukSale/src/Screen/Home/Dashoard.js:255-262 | the modal's setFaceId, onSuccess and onClose reach the dashboard's handlers; the modal's own alerts and reloads change nothing here |
| `QrScan.FirstFailure` | faceBoukSale/src/components/QRCode.js:26-50 | the error returned is that of a failing check, and every check before it passes |
| `QrScan.HasRequiredFields` | faceBoukSale/src/components/QRCode.js:26-33 | `type`, `amount`, `userId` and `timestamp` are all truthy |
| `QrScan.IsPositive` | faceBoukSale/src/components/QRCode.js:36-37 | a parsed amount is neither NaN nor <= 0 |
| `QrScan.AmountPositive` | faceBoukSale/src/components/QRCode.js:36-39 | `parseFloat(amount)` is neither NaN nor <= 0 |
| `QrScan.TimestampValid` | faceBoukSale/src/components/QRCode.js:42-45 | `new Date(timestamp)` is a valid date |
| `QrScan.TypeKnown` | faceBoukSale/src/components/QRCode.js:48-50 | the type is exactly one of the strings "PAYMENT", "transfer", "request" |
| `QrScan.ErrorText` | faceBoukSale/src/components/QRCode.js:32-49 | the message of each failure: the parse error, "Missing required QR code data", "Invalid amount format", "Invalid timestamp", "Invalid transaction type" |
| `QrScan.AlertBody` | faceBoukSale/src/components/QRCode.js:56-58 | the alert body: "Please scan a valid payment QR code. " followed by the error message |
| `QrScan.ChecksInOrder` | faceBoukSale/src/components/QRCode.js:26-50 | the nested tests fail first exactly where the ordered list fields → amount → timestamp → type does |
| `QrScan.Validate` | faceBoukSale/src/components/QRCode.js:22-50 | a parse failure or null payload is rejected with the thrown message. Otherwise the payload is accepted exactly when all four checks pass, and it is returned unchanged. A rejection reports the first failing check |
| `QrScan.LowerCasePaymentRejected` | faceBoukSale/src/components/QRCode.js:48-50 | the type test is case-sensitive: "payment" is rejected as an invalid type |
| `QrScan.ScanStep` | faceBoukSale/src/components/QRCode.js:16-65 | while latched or with empty data nothing changes. Otherwise the latch closes. Acceptance gives exactly onSuccess(payload) then onClose. Rejection gives exactly the "Invalid QR Code" alert with the error text, and only a rejection alerts |
| `QrScan.ScanAll` | faceBoukSale/src/components/QRCode.js:16-65 | a run of barcode events with no reset between them, each taken by `ScanStep` on the latch the previous one left |
| `QrScan.FirstNonEmpty` | faceBoukSale/src/components/QRCode.js:18 | the position of the first event with non-empty data, or the length when there is none: every earlier event is empty |
| `QrScan.LatchedIgnoresAll` | faceBoukSale/src/components/QRCode.js:18 | with the latch closed, any number of scan events has no effect |
| `QrScan.OneOutcomePerLatch` | faceBoukSale/src/components/QRCode.js:18-63 | within one latch period onSuccess fires at most once and never after a rejection. The latch ends closed exactly when some event had data, and then the whole outcome is that of the first such event alone; only empty data leaves the latch open |
| `QrScan.QrScanner.constructor` | faceBoukSale/src/components/QRCode.js:14 | the latch starts open with no alert and no effects |
| `QrScan.QrScanner.HandleBarCodeScanned` | faceBoukSale/src/components/QRCode.js:16-65 | the latch and the effects advance exactly as `ScanStep` says; a rejection opens the alert |
| `QrScan.QrScanner.TryAgain` | faceBoukSale/src/components/QRCode.js:60 | "Try Again" reopens the latch and calls nothing |
| `QrScan.QrScanner.Cancel` | faceBoukSale/src/components/QRCode.js:61 | "Cancel" calls onClose and leaves the latch closed |
| `QrScan.QrScanner.TapToScanAgain` | faceBoukSale/src/components/QRCode.js:101-108 | "Tap to Scan Again", shown while latched, reopens the latch |
| `QrScan.QrScanner.Close` | faceBoukSale/src/components/QRCode.js:72-78 | the close button calls onClose and leaves the latch as it was |
| `FaceCapture.CodeMessage` | faceBoukSale/src/components/FaceID.js:272-287 | the fixed text of each known code 1 to 14; code 2 reads the mode |
| `FaceCapture.DefaultFailure` | faceBoukSale/src/components/FaceID.js:269 | the per-mode default failure text, "Face enrollment failed" or "Face authentication failed" |
| `FaceCapture.ErrorMessage` | faceBoukSale/src/components/FaceID.js:269-287 | with the mode bound in the page, as intended: a known code 1-14 gives its table text. Any other code, or none, keeps the SDK message, or "Face enrollment failed" / "Face authentication failed" when that message is empty |
| `FaceCapture.ModeMattersOnlyForCode2` | faceBoukSale/src/components/FaceID.js:272-287 | when the SDK message is non-empty, every code other than 2 gives the same message in both modes |
| `FaceCapture.Code2DependsOnMode` | faceBoukSale/src/components/FaceID.js:274 | in the intended table, code 2 gives different messages when enrolling and when authenticating |
| `FaceCapture.ReportedUser` | faceBoukSale/src/components/FaceID.js:240-265 | enrollment reports the SDK data as is; authentication keeps only facialId, payload and timestamp |
| `FaceCapture.TerminalMessage` | faceBoukSale/src/components/FaceID.js:237-295 | with the mode bound, as intended: "success" with the reported data, or "error" with `ErrorMessage` and the SDK code |
| `FaceCapture.ReadsPageMode` | faceBoukSale/src/components/FaceID.js:269-274 | the catch block of `startFaceIO` evaluates the undeclared `mode` exactly when the SDK message is empty or the code is 2 |
| `FaceCapture.InitFailureText` | faceBoukSale/src/components/FaceID.js:211-215 | the text `initFaceIO` posts: the error message, or "Failed to initialize FaceIO" when it is empty |
| `FaceCapture.HookError` | faceBoukSale/src/components/FaceID.js:389-398 | what the `console.error` hook posts: type "error" with neither `error` nor `code` |
| `FaceCapture.PageTerminal` | faceBoukSale/src/components/FaceID.js:208-296 | the terminal message as the page is written: "error" exactly for a failure; a failure that does not read `mode` carries the mapped text and the code; one that reads it carries the ReferenceError text from `initFaceIO` and no code; code 2 is never posted |
| `FaceCapture.FailurePostIgnoresMode` | faceBoukSale/src/components/FaceID.js:267-296 | as written, a failure posts the same message in both modes |
| `FaceCapture.CapturePosts` | faceBoukSale/src/components/FaceID.js:208-296 | as written, one run posts a status line, a second status line, then `PageTerminal` |
| `FaceCapture.IntendedCapturePosts` | faceBoukSale/src/components/FaceID.js:219-296 | the same run with the mode bound: the terminal message is `TerminalMessage` |
| `FaceCapture.OneTerminalPerRun` | faceBoukSale/src/components/FaceID.js:208-296 | as written, the posts of one run hold exactly one terminal message, last. It is "success" with the reported data exactly when the SDK call completed. A failure that does not read `mode` posts "error" with the mapped message and the code; one that reads it posts the ReferenceError text and no code |
| `FaceCapture.UnexpectedAlert` | faceBoukSale/src/components/FaceID.js:111 | the generic "Error" / "An unexpected error occurred. Please try again." alert with no buttons of its own |
| `FaceCapture.AlreadyRegisteredAlert` | faceBoukSale/src/components/FaceID.js:71-86 | the "Face Already Registered" offer with its Yes and No buttons |
| `FaceCapture.FailureTitle` | faceBoukSale/src/components/FaceID.js:89-91 | "Face ID Setup Failed" when enrolling, "Face ID Authentication Failed" when authenticating |
| `FaceCapture.FailureAlert` | faceBoukSale/src/components/FaceID.js:88-106 | the failure alert: the mode's title, the message text, and the Try Again and Cancel buttons |
| `FaceCapture.Dispatch` | faceBoukSale/src/components/FaceID.js:41-114 | a success message with data gives exactly setFaceId(facialId), onSuccess(data), onClose. An unparseable message, or a success without data, gives the generic alert then onClose. An error message gives exactly one alert. Status, log and any other type give nothing |
| `FaceCapture.DispatchNotifies` | faceBoukSale/src/components/FaceID.js:49-112 | onSuccess fires exactly for a success message with data. onClose fires exactly for a success message or an unparseable one, so an error message never closes the modal by itself |
| `FaceCapture.ErrorRaisesOneAlert` | faceBoukSale/src/components/FaceID.js:67-107 | every error message raises exactly one alert |
| `FaceCapture.AlreadyRegisteredOffer` | faceBoukSale/src/components/FaceID.js:70-86 | a message with code 2 while enrolling raises only the "Face Already Registered" offer, and none of its buttons closes the modal (as written, the page never posts code 2; see `SwitchOfferUnreachable`) |
| `FaceCapture.FailureAlertShown` | faceBoukSale/src/components/FaceID.js:87-106 | every other error shows "Face ID Setup Failed" / "Face ID Authentication Failed" with `message.error` as its text; Try Again reloads and Cancel closes |
| `FaceCapture.ActionEffects` | faceBoukSale/src/components/FaceID.js:75-105 | what a button press does: Try Again reloads the page, Cancel calls onClose, Yes and No do nothing |
| `FaceCapture.RaisedAlerts` | faceBoukSale/src/components/FaceID.js:41-114 | the alerts among a list of effects, in order |
| `FaceCapture.SuccessfulRunEffects` | faceBoukSale/src/components/FaceID.js:41-66 | as written, a successful run ends in exactly setFaceId, onSuccess, onClose, in that order |
| `FaceCapture.FailedRunEffects` | faceBoukSale/src/components/FaceID.js:67-107 | as written, a failed run raises exactly one alert and calls neither onSuccess nor onClose |
| `FaceCapture.ModeReadShowsEngineError` | faceBoukSale/src/components/FaceID.js:208-216 | as written, a failure that reads `mode` shows the generic failure alert with the ReferenceError text, in either mode |
| `FaceCapture.NoOfferWithoutCode2` | faceBoukSale/src/components/FaceID.js:70-86 | a message without code 2 never raises the "Face Already Registered" offer |
| `FaceCapture.NoOfferWithoutCode2All` | faceBoukSale/src/components/FaceID.js:41-114 | the same for any sequence of messages |
| `FaceCapture.SwitchOfferUnreachable` | faceBoukSale/src/components/FaceID.js:269-274 | as written, no run, with or without the console hooks, ever raises the offer to log in instead |
| `FaceCapture.Code2OfferedWhenEnrolling` | faceBoukSale/src/components/FaceID.js:70-86 | with the mode bound, an enrollment failing with code 2 shows exactly the offer to log in instead |
| `FaceCapture.HookErrorAlert` | faceBoukSale/src/components/FaceID.js:389-398 | the hook's error message, which has no code, raises the failure alert with no text |
| `FaceCapture.HookedCapturePosts` | faceBoukSale/src/components/FaceID.js:366-398 | as written, with the console hooks: every `console.log` adds a "log" message and every `console.error` a bare "error" message; a failure that reads `mode` reaches `console.error` twice |
| `FaceCapture.TwoStatusPrefixedMessages` | faceBoukSale/src/components/FaceID.js:181-188 | two messages, each after the lines of an `updateStatus` call, are handled as the two messages alone and count as two terminal messages |
| `FaceCapture.ThreeStatusPrefixedMessages` | faceBoukSale/src/components/FaceID.js:181-188 | the same with the first message repeated right after itself: three terminal messages, handled as those three alone |
| `FaceCapture.HookedFailedRunSplits` | faceBoukSale/src/components/FaceID.js:267-296 | with the hooks, a failed run delivers the hook's "error" message (twice when `mode` is read) and the page's own, and is handled as exactly those |
| `FaceCapture.HookedFailedRunRaisesExtraAlerts` | faceBoukSale/src/components/FaceID.js:389-398 | with the injected console hooks, a failed run in authentication mode delivers two "error" messages, three when `mode` is read, and one failure alert for each, the first without a body |
| `FaceCapture.IgnoredPrefix` | faceBoukSale/src/components/FaceID.js:47-48 | status and log messages before a message add no effects and no terminal messages |
| `FaceCapture.LoggedCapturePosts` | faceBoukSale/src/components/FaceID.js:366-398 | the hooks as intended: console output, `console.error` included, arrives as "log" messages, with the mode bound |
| `FaceCapture.LoggedRunDispatchesLikeCapture` | faceBoukSale/src/components/FaceID.js:366-398 | with console output forwarded as "log" and the mode bound, a run again delivers exactly one terminal message and has the effects of `IntendedCapturePosts` |
| `FaceCapture.FaceCaptureModal.constructor` | faceBoukSale/src/components/FaceID.js:16-23 | the modal starts in the given mode with no effects and no open alert |
| `FaceCapture.FaceCaptureModal.HandleFaceIOMessage` | faceBoukSale/src/components/FaceID.js:41-114 | handling a message appends exactly the effects `Dispatch` gives, and opens exactly the alerts among them |
| `FaceCapture.FaceCaptureModal.PressButton` | faceBoukSale/src/components/FaceID.js:75-105 | only a button of an alert still open can be pressed; its action is appended (Try Again reloads, Cancel calls onClose, Yes and No do nothing) and that alert is dismissed |

## Findings

| source | as written | input that shows it | evidently intended | confidence | as-written member | corrected member |
|---|---|---|---|---|---|---|
| faceBoukSale/src/components/FaceID.js:389-398 | the injected `console.error` hook posts `{type: 'error', message}`, and the catch block of `startFaceIO` calls `console.error` (line 268) before posting its own error | any failing SDK call in authentication mode, e.g. code 11 with a non-empty message | one error message per failed run, so one failure alert | medium, not executed | `FaceCapture.HookedFailedRunRaisesExtraAlerts` | `FaceCapture.LoggedRunDispatchesLikeCapture` |
| faceBoukSale/src/components/FaceID.js:269-274 | the catch block of `startFaceIO` is page script (`\${` is escaped in the template), and reads `mode` in the default text of line 269 and in case 2 of line 274; the page declares no `mode` | an enrollment that fails with code 2, "face already registered" | the component's mode substituted as on line 223, so code 2 offers the switch to login and an empty message gets the mode's default text | high, not executed | `FaceCapture.SwitchOfferUnreachable` | `FaceCapture.Code2OfferedWhenEnrolling` |

With the hook as written, the handler first receives an "error" message that
has neither `error` nor `code`. The user then sees a "Face ID Authentication
Failed" alert with no text, followed by the real one. The corrected model
forwards console output as "log", which the handler ignores.

With `mode` undeclared in the page, such a failure throws a ReferenceError out
of the catch block of `startFaceIO`. The catch block of `initFaceIO` posts its
message with no code (`ModeReadShowsEngineError`). The enrolling user sees
"Face ID Setup Failed" with the engine's error text instead of the offer to
log in, and the per-mode default texts are never shown. The corrected model
binds the mode (`IntendedCapturePosts`, `TerminalMessage`), and
`LoggedCapturePosts` corrects both findings.

## Left out

- Rendering, styles, modal animation and `animateAmount`: presentation only.
- The `isLoading` flag is only observable between the awaits of `initializeData`. The model runs the handler as one step, so the flag ends false.
- Handlers run as sequential state updates. The model does not capture React render timing. The digit guard reads `amount` from the render while the update uses `prev`, and Continue uses the state current when it is pressed.
- Storage, token, network and mutation: `AsyncStorage`, `getToken`, `jwtDecode`, `getBusinessProfile` and `makeFaceIdPayment` are outside the model, which sees only their outcomes as parameters. `PaymentSettled` does not say which request a response belongs to.
- `JSON.parse`, `parseFloat` and `Date` parsing are abstract functions. Numbers are not modelled, except that an amount must not be NaN and must be > 0.
- Dashboard.PaymentSettled: the alerts are recorded in a log. The platform's alert stacking and the Continue button of the payment success alert (it has no handler) are not modelled.
- The face SDK loader (the script load, the wait for the SDK, instance creation, the one-second delay and their status lines), `window.onerror`, the WebView load-error alert and the camera-permission request: asynchronous or foreign code. `CapturePosts` covers `startFaceIO` and the catch block of `initFaceIO` it can fall through to; the `stack` field of that post is dropped, since the handler never reads it.
- FaceCapture.PageTerminal: the ReferenceError's text depends on the WebView's JavaScript engine, so it is a parameter (`refMessage`).
- Dashboard.InitStep: the mount effect (`Screen/Home/Dashoard.js:94-97`) re-runs only when `isInitialized` changes, so after a failed run the code does not retry within the same mount, despite "Please try again". The model says what one run does. It does not restrict how often runs happen.
- QrScan.ScanStep: `onSuccess` and `onClose` run inside the `try` block (`components/QRCode.js:52-53`), so a callback that throws would raise the "Invalid QR Code" alert with its message. The model treats the callbacks as effects that do not throw.
- FaceCapture.Dispatch: an exception thrown by a callback (`setFaceId`, `onSuccess`, `onClose`) would also reach the catch block. The model does not capture this.
- FaceCapture.SdkUser: `facialId` is a string. An undefined facial id is not modelled.
- FaceCapture.FaceMessage: `code` is an optional integer. String or fractional codes are not modelled.
- The "Yes" button of the already-registered alert only logs. The model records it as an action with no effect.
- FaceCapture.FaceCaptureModal.PressButton: the generic "Error" alert has only the platform's default OK button, which the model does not list, so that alert stays open in `open`.
- The QR scanner's host visibility (`isVisible`) and what the parent does on `onClose` belong to the parent component. The dashboard never opens the QR scanner.
