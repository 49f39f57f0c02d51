/** The face-capture modal: the messages one capture run inside the embedded
    page posts, the error-code table of that page, and the React Native side
    that dispatches each received message into callbacks and alerts. */
module FaceCapture {

  import opened Optional

  datatype Mode = Enroll | Authenticate

  /** What the face SDK hands back on success. Fields the SDK may omit are options. */
  datatype SdkUser = SdkUser(facialId: string, payload: Option<string>, timestamp: Option<string>, details: Option<string>)

  /** How one SDK call inside `startFaceIO` ends. */
  datatype SdkOutcome = Completed(user: SdkUser) | Failed(code: Option<int>, message: string)

  /** The `type` field of a received message: absent, one of the four values
      the page posts, or any other value, which the handler ignores. */
  datatype MessageType = Untyped | StatusType | SuccessType | ErrorType | LogType | OtherType

  /** A posted message after `JSON.stringify` and `JSON.parse`: a key whose value
      was `undefined` is dropped, so it arrives as `None`. */
  datatype FaceMessage = FaceMessage(kind: MessageType, error: Option<string>, code: Option<int>, data: Option<SdkUser>)

  /** One `onMessage` event: its text either fails `JSON.parse` or yields a message. */
  datatype Event = Unparseable | Received(msg: FaceMessage)

  datatype Action = NoAction | LogSwitch | Reload | Close
  datatype Button = Button(text: string, action: Action)
  datatype FaceAlert = FaceAlert(title: string, body: Option<string>, buttons: seq<Button>)

  /** The observable effects of the handler, in the order they happen. */
  datatype Effect =
    | SetFaceId(id: string)
    | NotifySuccess(data: SdkUser)
    | NotifyClose
    | ShowAlert(alert: FaceAlert)
    | ReloadPage

  // ---------------------------------------------------------------------
  // The error-code table of the embedded page.

  predicate KnownCode(code: int) {
    1 <= code <= 14
  }

  /** The message the page substitutes for a known SDK error code. */
  function CodeMessage(mode: Mode, code: int): string
    requires KnownCode(code)
  {
    match code
    case 1 => "Missing FaceIO dependencies."
    case 2 =>
      if mode == Enroll then "Face already registered. Please try logging in instead."
      else "Face not registered. Please enroll first."
    case 3 => "Face detection permission denied. Please enable camera access."
    case 4 => "Face detection initialization failed. Please try again."
    case 5 => "No face was found. Please ensure proper lighting."
    case 6 => "Session expired. Please try again."
    case 7 => "Invalid authentication payload."
    case 8 => "Face detection timeout. Please try again."
    case 9 => "No face detected. Please ensure good lighting and face the camera."
    case 10 => "Face not found. Please try again."
    case 11 => "Authentication failed. Face not recognized."
    case 12 => "Too many requests. Please try again later."
    case 13 => "Application not enrolled."
    case 14 => "Application not configured properly."
  }

  function DefaultFailure(mode: Mode): string {
    if mode == Enroll then "Face enrollment failed" else "Face authentication failed"
  }

  /** The `errorMessage` the catch block of `startFaceIO` computes once the
      component's mode is bound inside the page: the SDK's own message (or the
      mode's default when that is empty), replaced by the table entry when the
      code is truthy and known. As written the page never binds `mode`; see
      `ReadsPageMode`. */
  function ErrorMessage(mode: Mode, code: Option<int>, sdkMessage: string): (r: string)
    ensures code.Some? && KnownCode(code.value) ==> r == CodeMessage(mode, code.value)
    ensures !(code.Some? && KnownCode(code.value)) ==> r == if sdkMessage != "" then sdkMessage else DefaultFailure(mode)
  {
    var initial := if sdkMessage != "" then sdkMessage else DefaultFailure(mode);
    if code.Some? && code.value != 0 then
      (if KnownCode(code.value) then CodeMessage(mode, code.value) else initial)
    else initial
  }

  /** Only code 2 reads the mode; every other mapped or unmapped code gives the
      same message in both modes unless the SDK message is empty. */
  lemma ModeMattersOnlyForCode2(code: int, sdkMessage: string)
    requires code != 2 && sdkMessage != ""
    ensures ErrorMessage(Enroll, Some(code), sdkMessage) == ErrorMessage(Authenticate, Some(code), sdkMessage)
  {
  }

  lemma Code2DependsOnMode(sdkMessage: string)
    ensures ErrorMessage(Enroll, Some(2), sdkMessage) != ErrorMessage(Authenticate, Some(2), sdkMessage)
  {
  }

  // ---------------------------------------------------------------------
  // The messages one capture run posts (startFaceIO).

  function Status(): FaceMessage {
    FaceMessage(StatusType, None, None, None)
  }

  function Log(): FaceMessage {
    FaceMessage(LogType, None, None, None)
  }

  /** What the page reports as the success data of a run. Authentication keeps
      only `facialId`, `payload` and `timestamp`. */
  function ReportedUser(mode: Mode, user: SdkUser): SdkUser {
    if mode == Enroll then user else SdkUser(user.facialId, user.payload, user.timestamp, None)
  }

  /** The terminal message of a run with the component's mode bound inside the
      page: the success data, or the mapped error text with the SDK's code. */
  function TerminalMessage(mode: Mode, outcome: SdkOutcome): FaceMessage {
    match outcome
    case Completed(user) => FaceMessage(SuccessType, None, None, Some(ReportedUser(mode, user)))
    case Failed(code, message) => FaceMessage(ErrorType, Some(ErrorMessage(mode, code, message)), code, None)
  }

  /** Whether the catch block of `startFaceIO` evaluates the page-side name
      `mode`, which no script of the page declares: the default text is built
      only when the SDK message is empty, and case 2 of the switch reads it.
      Either way the catch block throws a ReferenceError. */
  predicate ReadsPageMode(code: Option<int>, sdkMessage: string) {
    sdkMessage == "" || code == Some(2)
  }

  /** The text `initFaceIO`'s catch block posts for an error with message `m`. */
  function InitFailureText(m: string): string {
    if m != "" then m else "Failed to initialize FaceIO"
  }

  /** The terminal message of a run as the page is written. A failure whose
      handling reads `mode` escapes `startFaceIO`; `initFaceIO` then posts the
      ReferenceError's message (`refMessage`, whose wording depends on the
      WebView's engine) and no code. */
  function PageTerminal(mode: Mode, outcome: SdkOutcome, refMessage: string): (t: FaceMessage)
    ensures t.kind.ErrorType? <==> outcome.Failed?
    ensures outcome.Completed? ==> t.data == Some(ReportedUser(mode, outcome.user))
    ensures outcome.Failed? && !ReadsPageMode(outcome.code, outcome.message) ==>
      t.error == Some(ErrorMessage(mode, outcome.code, outcome.message)) && t.code == outcome.code
    ensures outcome.Failed? && ReadsPageMode(outcome.code, outcome.message) ==>
      t.error == Some(InitFailureText(refMessage)) && t.code.None?
    ensures t.code != Some(2)
  {
    if outcome.Failed? && ReadsPageMode(outcome.code, outcome.message) then
      FaceMessage(ErrorType, Some(InitFailureText(refMessage)), None, None)
    else TerminalMessage(mode, outcome)
  }

  /** A failed run posts the same message in both modes: the page never reads
      the mode while handling a failure. */
  lemma FailurePostIgnoresMode(code: Option<int>, message: string, refMessage: string)
    ensures PageTerminal(Enroll, Failed(code, message), refMessage)
         == PageTerminal(Authenticate, Failed(code, message), refMessage)
  {
    if !ReadsPageMode(code, message) && code.Some? {
      ModeMattersOnlyForCode2(code.value, message);
    }
  }

  /** The messages a run of `startFaceIO` posts, as the page is written: a
      status line when it starts, a status line when it ends (from
      `startFaceIO`'s catch block or, when that throws, from `initFaceIO`'s),
      then the terminal message. */
  function CapturePosts(mode: Mode, outcome: SdkOutcome, refMessage: string): seq<FaceMessage> {
    [Status(), Status(), PageTerminal(mode, outcome, refMessage)]
  }

  /** The same posts with the component's mode bound inside the page. */
  function IntendedCapturePosts(mode: Mode, outcome: SdkOutcome): seq<FaceMessage> {
    [Status(), Status(), TerminalMessage(mode, outcome)]
  }

  /** What `updateStatus` posts once the page-level console hooks are
      installed: its `console.log` line, then the status message. */
  function HookedStatus(): seq<FaceMessage> {
    [Log(), Status()]
  }

  /** The message the `console.error` hook posts: type "error", but neither
      `error` nor `code`. */
  function HookError(): FaceMessage {
    FaceMessage(ErrorType, None, None, None)
  }

  /** The same run as the handler receives it once the page-level console hooks
      are installed: every `console.log` also posts a "log" message and every
      `console.error` also posts `HookError()`. A completed run logs its result
      before posting it. The catch block of `startFaceIO` logs through
      `console.error` before anything else; when it then throws, the catch
      block of `initFaceIO` logs through `console.error` once more. */
  function HookedCapturePosts(mode: Mode, outcome: SdkOutcome, refMessage: string): seq<FaceMessage> {
    match outcome
    case Completed(_) =>
      HookedStatus() + HookedStatus() + [Log(), PageTerminal(mode, outcome, refMessage)]
    case Failed(code, message) =>
      if ReadsPageMode(code, message) then
        ((HookedStatus() + [HookError()]) + [HookError()]) + (HookedStatus() + [PageTerminal(mode, outcome, refMessage)])
      else
        (HookedStatus() + [HookError()]) + (HookedStatus() + [PageTerminal(mode, outcome, refMessage)])
  }

  predicate IsTerminal(m: FaceMessage) {
    m.kind.SuccessType? || m.kind.ErrorType?
  }

  function CountTerminal(ms: seq<FaceMessage>): nat {
    if ms == [] then 0 else (if IsTerminal(ms[0]) then 1 else 0) + CountTerminal(ms[1..])
  }

  lemma CountTerminalOne(m: FaceMessage)
    ensures CountTerminal([m]) == if IsTerminal(m) then 1 else 0
  {
    assert [m][1..] == [];
  }

  lemma {:induction false} CountTerminalAppend(a: seq<FaceMessage>, b: seq<FaceMessage>)
    ensures CountTerminal(a + b) == CountTerminal(a) + CountTerminal(b)
  {
    if a == [] {
      assert a + b == b;
    } else {
      assert (a + b)[1..] == a[1..] + b;
      CountTerminalAppend(a[1..], b);
    }
  }

  /** A run of the page posts exactly one terminal message, last: "success"
      with the reported data or, for a failure, "error" with the mapped message
      and the code, or with the ReferenceError's message and no code when the
      failure's handling reads the undeclared `mode`. */
  lemma OneTerminalPerRun(mode: Mode, outcome: SdkOutcome, refMessage: string)
    ensures var ps := CapturePosts(mode, outcome, refMessage);
      && CountTerminal(ps) == 1
      && IsTerminal(ps[|ps| - 1])
      && (outcome.Completed? <==> ps[|ps| - 1].kind.SuccessType?)
      && (outcome.Completed? ==> ps[|ps| - 1].data == Some(ReportedUser(mode, outcome.user)))
      && (outcome.Failed? && !ReadsPageMode(outcome.code, outcome.message) ==>
            ps[|ps| - 1].error == Some(ErrorMessage(mode, outcome.code, outcome.message)) &&
            ps[|ps| - 1].code == outcome.code)
      && (outcome.Failed? && ReadsPageMode(outcome.code, outcome.message) ==>
            ps[|ps| - 1].error == Some(InitFailureText(refMessage)) && ps[|ps| - 1].code.None?)
  {
    var t := PageTerminal(mode, outcome, refMessage);
    assert CapturePosts(mode, outcome, refMessage) == [Status()] + [Status()] + [t];
    CountTerminalAppend([Status()] + [Status()], [t]);
    CountTerminalAppend([Status()], [Status()]);
    CountTerminalOne(Status());
    CountTerminalOne(t);
  }

  // ---------------------------------------------------------------------
  // handleFaceIOMessage.

  const UnexpectedTitle: string := "Error"
  const UnexpectedText: string := "An unexpected error occurred. Please try again."
  const RegisteredTitle: string := "Face Already Registered"
  const RegisteredText: string := "This face is already registered. Would you like to try logging in instead?"
  const SetupFailedTitle: string := "Face ID Setup Failed"
  const AuthFailedTitle: string := "Face ID Authentication Failed"

  function UnexpectedAlert(): FaceAlert {
    FaceAlert(UnexpectedTitle, Some(UnexpectedText), [])
  }

  function AlreadyRegisteredAlert(): FaceAlert {
    FaceAlert(RegisteredTitle, Some(RegisteredText), [Button("Yes", LogSwitch), Button("No", NoAction)])
  }

  function FailureTitle(mode: Mode): string {
    if mode == Enroll then SetupFailedTitle else AuthFailedTitle
  }

  function FailureAlert(mode: Mode, error: Option<string>): FaceAlert {
    FaceAlert(FailureTitle(mode), error, [Button("Try Again", Reload), Button("Cancel", Close)])
  }

  predicate HasNotifySuccess(es: seq<Effect>) {
    exists i :: 0 <= i < |es| && es[i].NotifySuccess?
  }

  predicate HasNotifyClose(es: seq<Effect>) {
    exists i :: 0 <= i < |es| && es[i].NotifyClose?
  }

  predicate IsSuccess(ev: Event) {
    ev.Received? && ev.msg.kind.SuccessType?
  }

  predicate IsError(ev: Event) {
    ev.Received? && ev.msg.kind.ErrorType?
  }

  /** The effects of one received message. Reading `data.facialId` of a success
      message without data throws, which lands in the same catch as a message
      that does not parse. */
  function Dispatch(mode: Mode, ev: Event): (r: seq<Effect>)
    ensures IsSuccess(ev) && ev.msg.data.Some? ==>
      r == [SetFaceId(ev.msg.data.value.facialId), NotifySuccess(ev.msg.data.value), NotifyClose]
    ensures ev.Unparseable? || (IsSuccess(ev) && ev.msg.data.None?) ==> r == [ShowAlert(UnexpectedAlert()), NotifyClose]
    ensures IsError(ev) ==> |r| == 1 && r[0].ShowAlert?
    ensures ev.Received? && !IsSuccess(ev) && !IsError(ev) ==> r == []
  {
    match ev
    case Unparseable => [ShowAlert(UnexpectedAlert()), NotifyClose]
    case Received(m) =>
      match m.kind
      case SuccessType =>
        (match m.data
         case None => [ShowAlert(UnexpectedAlert()), NotifyClose]
         case Some(d) => [SetFaceId(d.facialId), NotifySuccess(d), NotifyClose])
      case ErrorType =>
        if m.code == Some(2) && mode == Enroll then [ShowAlert(AlreadyRegisteredAlert())]
        else [ShowAlert(FailureAlert(mode, m.error))]
      case _ => []
  }

  /** onSuccess fires exactly for a success message that carries data, and
      onClose exactly for a success message or one that cannot be handled:
      an error message never closes the modal by itself. */
  lemma DispatchNotifies(mode: Mode, ev: Event)
    ensures HasNotifySuccess(Dispatch(mode, ev)) <==> IsSuccess(ev) && ev.msg.data.Some?
    ensures HasNotifyClose(Dispatch(mode, ev)) <==> ev.Unparseable? || IsSuccess(ev)
  {
    var r := Dispatch(mode, ev);
    if IsSuccess(ev) && ev.msg.data.Some? {
      assert r[1].NotifySuccess? && r[2].NotifyClose?;
    } else if ev.Unparseable? || IsSuccess(ev) {
      assert r[1].NotifyClose?;
    }
  }

  /** An error message with code 2 while enrolling offers the switch to login,
      and none of the offer's buttons closes the modal. */
  lemma AlreadyRegisteredOffer(m: FaceMessage)
    requires m.kind.ErrorType? && m.code == Some(2)
    ensures Dispatch(Enroll, Received(m)) == [ShowAlert(AlreadyRegisteredAlert())]
    ensures forall b :: b in AlreadyRegisteredAlert().buttons ==> b.action != Close
  {
  }

  /** Every other error message shows the failure alert titled by mode with
      `message.error` as its text: Try Again reloads and Cancel closes. */
  lemma FailureAlertShown(mode: Mode, m: FaceMessage)
    requires m.kind.ErrorType? && !(m.code == Some(2) && mode == Enroll)
    ensures var a := Dispatch(mode, Received(m))[0].alert;
      && a.title == FailureTitle(mode) && a.body == m.error
      && a.buttons == [Button("Try Again", Reload), Button("Cancel", Close)]
  {
  }

  /** The alerts raised by a list of effects, in order. */
  function RaisedAlerts(es: seq<Effect>): seq<FaceAlert> {
    if es == [] then []
    else AlertOf(es[0]) + RaisedAlerts(es[1..])
  }

  function AlertOf(e: Effect): seq<FaceAlert> {
    if e.ShowAlert? then [e.alert] else []
  }

  /** The alerts of the short effect lists the handler produces. */
  lemma RaisedAlertsPair(a: Effect, b: Effect)
    ensures RaisedAlerts([a]) == AlertOf(a)
    ensures RaisedAlerts([a, b]) == AlertOf(a) + AlertOf(b)
  {
    assert [a][1..] == [];
    assert [a, b][1..] == [b] && [b][1..] == [];
  }

  lemma RaisedAlertsShort(a: Effect, b: Effect, c: Effect)
    ensures RaisedAlerts([a]) == AlertOf(a)
    ensures RaisedAlerts([a, b]) == AlertOf(a) + AlertOf(b)
    ensures RaisedAlerts([a, b, c]) == AlertOf(a) + AlertOf(b) + AlertOf(c)
  {
    RaisedAlertsPair(a, b);
    RaisedAlertsPair(b, c);
    assert [a, b, c][1..] == [b, c];
  }

  /** What pressing an alert button does. */
  function ActionEffects(a: Action): seq<Effect> {
    match a
    case Reload => [ReloadPage]
    case Close => [NotifyClose]
    case LogSwitch => []
    case NoAction => []
  }

  /** The effects of handling a sequence of messages in order. */
  function DispatchAll(mode: Mode, ms: seq<FaceMessage>): seq<Effect> {
    if ms == [] then [] else Dispatch(mode, Received(ms[0])) + DispatchAll(mode, ms[1..])
  }

  function CountAlerts(es: seq<Effect>): nat {
    if es == [] then 0 else (if es[0].ShowAlert? then 1 else 0) + CountAlerts(es[1..])
  }

  lemma DispatchAllOne(mode: Mode, m: FaceMessage)
    ensures DispatchAll(mode, [m]) == Dispatch(mode, Received(m))
  {
    assert [m][1..] == [];
  }

  lemma {:induction false} DispatchAllAppend(mode: Mode, a: seq<FaceMessage>, b: seq<FaceMessage>)
    ensures DispatchAll(mode, a + b) == DispatchAll(mode, a) + DispatchAll(mode, b)
  {
    if a == [] {
      assert a + b == b;
    } else {
      assert (a + b)[1..] == a[1..] + b;
      DispatchAllAppend(mode, a[1..], b);
    }
  }

  lemma {:induction false} CountAlertsAppend(a: seq<Effect>, b: seq<Effect>)
    ensures CountAlerts(a + b) == CountAlerts(a) + CountAlerts(b)
  {
    if a == [] {
      assert a + b == b;
    } else {
      assert (a + b)[1..] == a[1..] + b;
      CountAlertsAppend(a[1..], b);
    }
  }

  lemma CountAlertsOne(e: Effect)
    ensures CountAlerts([e]) == if e.ShowAlert? then 1 else 0
  {
    assert [e][1..] == [];
  }

  /** An error message raises exactly one alert. */
  lemma ErrorRaisesOneAlert(mode: Mode, m: FaceMessage)
    requires m.kind.ErrorType?
    ensures CountAlerts(Dispatch(mode, Received(m))) == 1
  {
    var r := Dispatch(mode, Received(m));
    assert r == [r[0]];
    CountAlertsOne(r[0]);
  }

  /** A successful run ends in exactly setFaceId, onSuccess, onClose. */
  lemma SuccessfulRunEffects(mode: Mode, user: SdkUser, refMessage: string)
    ensures DispatchAll(mode, CapturePosts(mode, Completed(user), refMessage))
         == [SetFaceId(user.facialId), NotifySuccess(ReportedUser(mode, user)), NotifyClose]
  {
    var t := PageTerminal(mode, Completed(user), refMessage);
    assert CapturePosts(mode, Completed(user), refMessage) == [Status(), Status()] + [t];
    IgnoredPrefix(mode, [Status(), Status()], t);
  }

  /** A failed run raises exactly one alert and calls neither onSuccess nor
      onClose by itself. */
  lemma FailedRunEffects(mode: Mode, code: Option<int>, message: string, refMessage: string)
    ensures var es := DispatchAll(mode, CapturePosts(mode, Failed(code, message), refMessage));
      && |es| == 1 && es[0].ShowAlert? && CountAlerts(es) == 1
      && !HasNotifySuccess(es) && !HasNotifyClose(es)
  {
    var t := PageTerminal(mode, Failed(code, message), refMessage);
    assert CapturePosts(mode, Failed(code, message), refMessage) == [Status(), Status()] + [t];
    IgnoredPrefix(mode, [Status(), Status()], t);
    ErrorRaisesOneAlert(mode, t);
    DispatchNotifies(mode, Received(t));
  }

  /** A failure whose handling reads the undeclared `mode` shows the generic
      failure alert with the ReferenceError's text: enrolling with code 2 gets
      "Face ID Setup Failed", not the offer to log in. */
  lemma ModeReadShowsEngineError(mode: Mode, code: Option<int>, message: string, refMessage: string)
    requires ReadsPageMode(code, message)
    ensures DispatchAll(mode, CapturePosts(mode, Failed(code, message), refMessage))
         == [ShowAlert(FailureAlert(mode, Some(InitFailureText(refMessage))))]
  {
    var t := PageTerminal(mode, Failed(code, message), refMessage);
    assert CapturePosts(mode, Failed(code, message), refMessage) == [Status(), Status()] + [t];
    IgnoredPrefix(mode, [Status(), Status()], t);
  }

  /** A message without code 2 never raises the offer to log in. */
  lemma NoOfferWithoutCode2(mode: Mode, m: FaceMessage)
    requires m.code != Some(2)
    ensures ShowAlert(AlreadyRegisteredAlert()) !in Dispatch(mode, Received(m))
  {
    var r := Dispatch(mode, Received(m));
    if m.kind.ErrorType? {
      assert r == [ShowAlert(FailureAlert(mode, m.error))];
      assert FailureAlert(mode, m.error).buttons[0].text == "Try Again";
    } else if m.kind.SuccessType? && m.data.None? {
      assert r[0].alert.buttons == [];
    }
  }

  /** The same for a sequence of messages. */
  lemma {:induction false} NoOfferWithoutCode2All(mode: Mode, ms: seq<FaceMessage>)
    requires forall i :: 0 <= i < |ms| ==> ms[i].code != Some(2)
    ensures ShowAlert(AlreadyRegisteredAlert()) !in DispatchAll(mode, ms)
    decreases |ms|
  {
    if ms != [] {
      NoOfferWithoutCode2(mode, ms[0]);
      assert forall i :: 1 <= i < |ms| ==> ms[1..][i - 1] == ms[i];
      NoOfferWithoutCode2All(mode, ms[1..]);
    }
  }

  /** As the page is written, no run and no hook ever posts code 2, so the
      handler's offer to log in instead is never shown. */
  lemma SwitchOfferUnreachable(mode: Mode, outcome: SdkOutcome, refMessage: string)
    ensures ShowAlert(AlreadyRegisteredAlert()) !in DispatchAll(mode, CapturePosts(mode, outcome, refMessage))
    ensures ShowAlert(AlreadyRegisteredAlert()) !in DispatchAll(mode, HookedCapturePosts(mode, outcome, refMessage))
  {
    var ps := CapturePosts(mode, outcome, refMessage);
    assert forall i :: 0 <= i < |ps| ==> ps[i].code != Some(2);
    NoOfferWithoutCode2All(mode, ps);
    var hs := HookedCapturePosts(mode, outcome, refMessage);
    assert forall i :: 0 <= i < |hs| ==> hs[i] in {Log(), Status(), HookError(), PageTerminal(mode, outcome, refMessage)};
    NoOfferWithoutCode2All(mode, hs);
  }

  /** With the component's mode bound inside the page, an enrollment that
      fails with code 2 offers the switch to login. */
  lemma Code2OfferedWhenEnrolling(message: string)
    ensures DispatchAll(Enroll, IntendedCapturePosts(Enroll, Failed(Some(2), message)))
         == [ShowAlert(AlreadyRegisteredAlert())]
  {
    var t := TerminalMessage(Enroll, Failed(Some(2), message));
    assert IntendedCapturePosts(Enroll, Failed(Some(2), message)) == [Status(), Status()] + [t];
    IgnoredPrefix(Enroll, [Status(), Status()], t);
  }

  /** The hook's error message has no code, so it raises the failure alert,
      here with no body. */
  lemma HookErrorAlert(mode: Mode)
    ensures Dispatch(mode, Received(HookError())) == [ShowAlert(FailureAlert(mode, None))]
  {
  }

  /** The hooked posts of a failed run are the hook's error message (twice
      when the catch block throws) and the page's own error, each behind
      ignored lines. */
  lemma HookedFailedRunSplits(mode: Mode, code: Option<int>, message: string, refMessage: string)
    ensures var ps := HookedCapturePosts(mode, Failed(code, message), refMessage);
      var h := Dispatch(mode, Received(HookError()));
      var t := Dispatch(mode, Received(PageTerminal(mode, Failed(code, message), refMessage)));
      && CountTerminal(ps) == (if ReadsPageMode(code, message) then 3 else 2)
      && DispatchAll(mode, ps) == (if ReadsPageMode(code, message) then h + h + t else h + t)
  {
    var t := PageTerminal(mode, Failed(code, message), refMessage);
    if ReadsPageMode(code, message) {
      ThreeStatusPrefixedMessages(mode, HookError(), t);
    } else {
      TwoStatusPrefixedMessages(mode, HookError(), t);
    }
  }

  /** Two messages, each after the lines of an `updateStatus` call, are handled
      as the two messages alone. */
  lemma TwoStatusPrefixedMessages(mode: Mode, a: FaceMessage, b: FaceMessage)
    requires a.kind.ErrorType? && b.kind.ErrorType?
    ensures CountTerminal((HookedStatus() + [a]) + (HookedStatus() + [b])) == 2
    ensures DispatchAll(mode, (HookedStatus() + [a]) + (HookedStatus() + [b]))
         == Dispatch(mode, Received(a)) + Dispatch(mode, Received(b))
  {
    var pre := HookedStatus();
    IgnoredPrefix(mode, pre, a);
    IgnoredPrefix(mode, pre, b);
    DispatchAllAppend(mode, pre + [a], pre + [b]);
    CountTerminalAppend(pre + [a], pre + [b]);
  }

  /** The same with the first message repeated right after itself. */
  lemma ThreeStatusPrefixedMessages(mode: Mode, a: FaceMessage, b: FaceMessage)
    requires a.kind.ErrorType? && b.kind.ErrorType?
    ensures CountTerminal(((HookedStatus() + [a]) + [a]) + (HookedStatus() + [b])) == 3
    ensures DispatchAll(mode, ((HookedStatus() + [a]) + [a]) + (HookedStatus() + [b]))
         == Dispatch(mode, Received(a)) + Dispatch(mode, Received(a)) + Dispatch(mode, Received(b))
  {
    var pre := HookedStatus();
    IgnoredPrefix(mode, pre, a);
    IgnoredPrefix(mode, pre, b);
    DispatchAllOne(mode, a);
    CountTerminalOne(a);
    DispatchAllAppend(mode, pre + [a], [a]);
    CountTerminalAppend(pre + [a], [a]);
    DispatchAllAppend(mode, (pre + [a]) + [a], pre + [b]);
    CountTerminalAppend((pre + [a]) + [a], pre + [b]);
  }

  /** With the console hooks, a failed run delivers an extra "error" message
      per `console.error` call, two or three in all, and in authentication mode
      the handler raises one failure alert per message, the first one with no
      body. */
  lemma HookedFailedRunRaisesExtraAlerts(code: Option<int>, message: string, refMessage: string)
    ensures var ps := HookedCapturePosts(Authenticate, Failed(code, message), refMessage);
      var n := if ReadsPageMode(code, message) then 3 else 2;
      && CountTerminal(ps) == n
      && var es := DispatchAll(Authenticate, ps);
         && CountAlerts(es) == n
         && es[0] == ShowAlert(FailureAlert(Authenticate, None))
  {
    HookedFailedRunSplits(Authenticate, code, message, refMessage);
    HookErrorAlert(Authenticate);
    var h := Dispatch(Authenticate, Received(HookError()));
    var t := Dispatch(Authenticate, Received(PageTerminal(Authenticate, Failed(code, message), refMessage)));
    ErrorRaisesOneAlert(Authenticate, HookError());
    ErrorRaisesOneAlert(Authenticate, PageTerminal(Authenticate, Failed(code, message), refMessage));
    if ReadsPageMode(code, message) {
      CountAlertsAppend(h, h);
      CountAlertsAppend(h + h, t);
    } else {
      CountAlertsAppend(h, t);
    }
  }

  /** The console hooks as evidently intended: console output, including
      `console.error`, forwarded as "log" messages, which the handler ignores. */
  function LoggedCapturePosts(mode: Mode, outcome: SdkOutcome): seq<FaceMessage> {
    match outcome
    case Completed(_) => [Log(), Status(), Log(), Status(), Log(), TerminalMessage(mode, outcome)]
    case Failed(_, _) => [Log(), Status(), Log(), Log(), Status(), TerminalMessage(mode, outcome)]
  }

  predicate Ignored(m: FaceMessage) {
    m.kind.StatusType? || m.kind.LogType?
  }

  /** Messages the handler ignores contribute neither effects nor terminals. */
  lemma {:induction false} IgnoredPrefix(mode: Mode, pre: seq<FaceMessage>, t: FaceMessage)
    requires forall i :: 0 <= i < |pre| ==> Ignored(pre[i])
    ensures DispatchAll(mode, pre + [t]) == Dispatch(mode, Received(t))
    ensures CountTerminal(pre + [t]) == (if IsTerminal(t) then 1 else 0)
  {
    if pre == [] {
      assert pre + [t] == [t];
      DispatchAllOne(mode, t);
      CountTerminalOne(t);
    } else {
      assert (pre + [t])[1..] == pre[1..] + [t];
      IgnoredPrefix(mode, pre[1..], t);
    }
  }

  /** With console output forwarded as "log", every run again delivers one
      terminal message and the handler does exactly what it does for the
      page's own posts. */
  lemma LoggedRunDispatchesLikeCapture(mode: Mode, outcome: SdkOutcome)
    ensures CountTerminal(LoggedCapturePosts(mode, outcome)) == 1
    ensures DispatchAll(mode, LoggedCapturePosts(mode, outcome)) == DispatchAll(mode, IntendedCapturePosts(mode, outcome))
  {
    var t := TerminalMessage(mode, outcome);
    var logged := LoggedCapturePosts(mode, outcome);
    var pre := logged[..5];
    assert logged == pre + [t];
    IgnoredPrefix(mode, pre, t);
    assert IntendedCapturePosts(mode, outcome) == [Status(), Status()] + [t];
    IgnoredPrefix(mode, [Status(), Status()], t);
  }

  // ---------------------------------------------------------------------
  // The modal component itself, with the callbacks it fires recorded in order.

  class FaceCaptureModal {
    const mode: Mode
    var effects: seq<Effect>
    /** The alerts raised and not yet dismissed, oldest first. */
    var open: seq<FaceAlert>

    constructor (mode: Mode)
      ensures this.mode == mode && effects == [] && open == []
    {
      this.mode := mode;
      effects := [];
      open := [];
    }

    /** handleFaceIOMessage. */
    method HandleFaceIOMessage(ev: Event)
      modifies this
      ensures effects == old(effects) + Dispatch(mode, ev)
      ensures open == old(open) + RaisedAlerts(Dispatch(mode, ev))
    {
      RaisedAlertsShort(ShowAlert(UnexpectedAlert()), NotifyClose, NotifyClose);
      match ev {
        case Unparseable =>
          effects := effects + [ShowAlert(UnexpectedAlert()), NotifyClose];
          open := open + [UnexpectedAlert()];
        case Received(m) =>
          if m.kind.StatusType? {
          } else if m.kind.SuccessType? {
            if m.data.None? {
              effects := effects + [ShowAlert(UnexpectedAlert()), NotifyClose];
              open := open + [UnexpectedAlert()];
            } else {
              effects := effects + [SetFaceId(m.data.value.facialId), NotifySuccess(m.data.value), NotifyClose];
              RaisedAlertsShort(SetFaceId(m.data.value.facialId), NotifySuccess(m.data.value), NotifyClose);
            }
          } else if m.kind.ErrorType? {
            if m.code == Some(2) && mode == Enroll {
              effects := effects + [ShowAlert(AlreadyRegisteredAlert())];
              open := open + [AlreadyRegisteredAlert()];
              RaisedAlertsShort(ShowAlert(AlreadyRegisteredAlert()), NotifyClose, NotifyClose);
            } else {
              effects := effects + [ShowAlert(FailureAlert(mode, m.error))];
              open := open + [FailureAlert(mode, m.error)];
              RaisedAlertsShort(ShowAlert(FailureAlert(mode, m.error)), NotifyClose, NotifyClose);
            }
          }
      }
    }

    /** The user presses button `i` of the open alert `k`: its action runs and
        the alert is dismissed. */
    method PressButton(k: nat, i: nat)
      requires k < |open| && i < |open[k].buttons|
      modifies this
      ensures effects == old(effects) + ActionEffects(old(open)[k].buttons[i].action)
      ensures open == old(open)[..k] + old(open)[k + 1..]
    {
      effects := effects + ActionEffects(open[k].buttons[i].action);
      open := open[..k] + open[k + 1..];
    }
  }
}
