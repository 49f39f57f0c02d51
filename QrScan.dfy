/** The QR-code scanner modal: the `scanned` latch, the ordered validation
    chain a payload goes through, and the callbacks and alert that follow. */
module QrScan {

  /** A JavaScript number. */
  datatype Number = NaN | PosInfinity | NegInfinity | Finite(value: real)

  /** A property value of the parsed payload, as JavaScript sees it. */
  datatype JsValue = Undefined | Null | Bool(b: bool) | Num(n: Number) | Str(s: string) | Composite

  /** The top-level value `JSON.parse` returns: `null`, or a value whose
      properties are read (objects; for other values every property read here
      is `undefined`, so they have no entries). */
  datatype Document = NullDoc | Props(props: map<string, JsValue>)

  datatype ParseResult = SyntaxError(message: string) | Parsed(doc: Document)

  /** The library behaviour the handler relies on, left abstract: `JSON.parse`,
      `parseFloat`, whether `new Date(v).getTime()` is a number, and the
      message of the TypeError thrown when a property of `null` is read. */
  datatype JsLib = JsLib(
    parse: string -> ParseResult,
    parseFloat: JsValue -> Number,
    validDate: JsValue -> bool,
    nullPropertyMessage: string)

  datatype ScanError = Thrown(message: string) | MissingFields | InvalidAmount | InvalidTimestamp | InvalidType

  datatype Verdict = Accepted(payload: map<string, JsValue>) | Rejected(error: ScanError)

  /** The callbacks the modal fires and the alert it raises, in order. */
  datatype QrEffect = NotifySuccess(payload: map<string, JsValue>) | NotifyClose | ShowInvalidAlert(body: string)

  /** JavaScript truthiness. */
  predicate Truthy(v: JsValue) {
    match v
    case Undefined => false
    case Null => false
    case Bool(b) => b
    case Num(n) => n.PosInfinity? || n.NegInfinity? || (n.Finite? && n.value != 0.0)
    case Str(s) => s != ""
    case Composite => true
  }

  function Get(p: map<string, JsValue>, key: string): JsValue {
    if key in p then p[key] else Undefined
  }

  const TransactionTypes: seq<string> := ["PAYMENT", "transfer", "request"]

  predicate HasRequiredFields(p: map<string, JsValue>) {
    Truthy(Get(p, "type")) && Truthy(Get(p, "amount")) && Truthy(Get(p, "userId")) && Truthy(Get(p, "timestamp"))
  }

  /** Neither NaN nor `<= 0`. */
  predicate IsPositive(n: Number) {
    n.PosInfinity? || (n.Finite? && n.value > 0.0)
  }

  predicate AmountPositive(p: map<string, JsValue>, lib: JsLib) {
    IsPositive(lib.parseFloat(Get(p, "amount")))
  }

  predicate TimestampValid(p: map<string, JsValue>, lib: JsLib) {
    lib.validDate(Get(p, "timestamp"))
  }

  /** `includes` compares strictly, so only these three exact strings pass. */
  predicate TypeKnown(p: map<string, JsValue>) {
    Get(p, "type").Str? && Get(p, "type").s in TransactionTypes
  }

  function ErrorText(e: ScanError): string {
    match e
    case Thrown(message) => message
    case MissingFields => "Missing required QR code data"
    case InvalidAmount => "Invalid amount format"
    case InvalidTimestamp => "Invalid timestamp"
    case InvalidType => "Invalid transaction type"
  }

  function AlertBody(e: ScanError): string {
    "Please scan a valid payment QR code. " + ErrorText(e)
  }

  // ---------------------------------------------------------------------
  // An independent statement of the chain: the checks as an ordered list,
  // and the verdict as the first one that fails.

  datatype Check = Check(passes: bool, error: ScanError)

  function Checks(p: map<string, JsValue>, lib: JsLib): seq<Check> {
    [ Check(HasRequiredFields(p), MissingFields),
      Check(AmountPositive(p, lib), InvalidAmount),
      Check(TimestampValid(p, lib), InvalidTimestamp),
      Check(TypeKnown(p), InvalidType) ]
  }

  /** The error of the first failing check, if any. */
  function FirstFailure(cs: seq<Check>): (r: ScanError)
    requires exists i :: 0 <= i < |cs| && !cs[i].passes
    ensures exists i :: 0 <= i < |cs| && !cs[i].passes && r == cs[i].error
                        && forall j :: 0 <= j < i ==> cs[j].passes
  {
    if !cs[0].passes then cs[0].error
    else
      var r := FirstFailure(cs[1..]);
      assert forall i :: 1 <= i < |cs| ==> cs[1..][i - 1] == cs[i];
      r
  }

  predicate AllPass(cs: seq<Check>) {
    forall i :: 0 <= i < |cs| ==> cs[i].passes
  }

  /** The list of checks fails first exactly where the nested tests of the
      handler do. */
  lemma ChecksInOrder(p: map<string, JsValue>, lib: JsLib)
    ensures AllPass(Checks(p, lib)) <==>
      HasRequiredFields(p) && AmountPositive(p, lib) && TimestampValid(p, lib) && TypeKnown(p)
    ensures !AllPass(Checks(p, lib)) ==>
      FirstFailure(Checks(p, lib)) ==
        if !HasRequiredFields(p) then MissingFields
        else if !AmountPositive(p, lib) then InvalidAmount
        else if !TimestampValid(p, lib) then InvalidTimestamp
        else InvalidType
  {
    var cs := Checks(p, lib);
    if cs[0].passes && cs[1].passes && cs[2].passes && cs[3].passes {
      forall i | 0 <= i < |cs|
        ensures cs[i].passes
      {
        assert i == 0 || i == 1 || i == 2 || i == 3;
      }
    }
    var c1 := cs[1..];
    var c2 := c1[1..];
    var c3 := c2[1..];
    assert c3 == [Check(TypeKnown(p), InvalidType)];
    if !AllPass(cs) && cs[0].passes {
      assert FirstFailure(cs) == FirstFailure(c1);
      if c1[0].passes {
        assert FirstFailure(c1) == FirstFailure(c2);
        if c2[0].passes {
          assert FirstFailure(c2) == FirstFailure(c3);
        }
      }
    }
  }

  /** handleBarCodeScanned's validation: parse, then the four checks in order,
      the first failure deciding the error. */
  function Validate(data: string, lib: JsLib): (r: Verdict)
    ensures lib.parse(data).SyntaxError? ==> r == Rejected(Thrown(lib.parse(data).message))
    ensures lib.parse(data) == Parsed(NullDoc) ==> r == Rejected(Thrown(lib.nullPropertyMessage))
    ensures lib.parse(data).Parsed? && lib.parse(data).doc.Props? ==>
      var p := lib.parse(data).doc.props;
      && (r.Accepted? <==> AllPass(Checks(p, lib)))
      && (r.Accepted? ==> r.payload == p)
      && (r.Rejected? ==> r.error == FirstFailure(Checks(p, lib)))
  {
    match lib.parse(data)
    case SyntaxError(message) => Rejected(Thrown(message))
    case Parsed(NullDoc) => Rejected(Thrown(lib.nullPropertyMessage))
    case Parsed(Props(p)) =>
      ChecksInOrder(p, lib);
      if !HasRequiredFields(p) then Rejected(MissingFields)
      else if !AmountPositive(p, lib) then Rejected(InvalidAmount)
      else if !TimestampValid(p, lib) then Rejected(InvalidTimestamp)
      else if !TypeKnown(p) then Rejected(InvalidType)
      else Accepted(p)
  }

  /** The type test is case-sensitive: a payload that passes every other check
      but says "payment" is rejected for its type. */
  lemma LowerCasePaymentRejected(data: string, lib: JsLib)
    requires lib.parse(data).Parsed? && lib.parse(data).doc.Props?
    requires var p := lib.parse(data).doc.props;
      HasRequiredFields(p) && AmountPositive(p, lib) && TimestampValid(p, lib) && Get(p, "type") == Str("payment")
    ensures Validate(data, lib) == Rejected(InvalidType)
  {
  }

  // ---------------------------------------------------------------------
  // The latch.

  datatype ScanOutcome = ScanOutcome(scanned: bool, effects: seq<QrEffect>, alerted: bool)

  /** One barcode event: ignored while latched or when the data is empty;
      otherwise the latch closes before validation, and acceptance calls
      onSuccess then onClose while rejection raises the alert. */
  function ScanStep(scanned: bool, data: string, lib: JsLib): (o: ScanOutcome)
    ensures scanned || data == "" ==> o == ScanOutcome(scanned, [], false)
    ensures !scanned && data != "" ==> o.scanned
    ensures o.alerted <==> !scanned && data != "" && Validate(data, lib).Rejected?
    ensures o.alerted ==> o.effects == [ShowInvalidAlert(AlertBody(Validate(data, lib).error))]
    ensures !scanned && data != "" && Validate(data, lib).Accepted? ==>
      o.effects == [NotifySuccess(Validate(data, lib).payload), NotifyClose]
  {
    if scanned || data == "" then ScanOutcome(scanned, [], false)
    else
      match Validate(data, lib)
      case Accepted(p) => ScanOutcome(true, [NotifySuccess(p), NotifyClose], false)
      case Rejected(e) => ScanOutcome(true, [ShowInvalidAlert(AlertBody(e))], true)
  }

  /** A run of barcode events with no reset in between. */
  function ScanAll(scanned: bool, events: seq<string>, lib: JsLib): ScanOutcome
    decreases |events|
  {
    if events == [] then ScanOutcome(scanned, [], false)
    else
      var first := ScanStep(scanned, events[0], lib);
      var rest := ScanAll(first.scanned, events[1..], lib);
      ScanOutcome(rest.scanned, first.effects + rest.effects, first.alerted || rest.alerted)
  }

  function CountSuccess(es: seq<QrEffect>): nat {
    if es == [] then 0 else (if es[0].NotifySuccess? then 1 else 0) + CountSuccess(es[1..])
  }

  /** The index of the first non-empty payload, or the length when there is none. */
  function FirstNonEmpty(events: seq<string>): (k: nat)
    ensures k <= |events|
    ensures forall i :: 0 <= i < k ==> events[i] == ""
    ensures k < |events| ==> events[k] != ""
    decreases |events|
  {
    if events == [] then 0
    else if events[0] != "" then 0
    else 1 + FirstNonEmpty(events[1..])
  }

  /** While the latch is closed, no event changes anything. */
  lemma {:induction false} LatchedIgnoresAll(events: seq<string>, lib: JsLib)
    ensures ScanAll(true, events, lib) == ScanOutcome(true, [], false)
    decreases |events|
  {
    if events != [] {
      LatchedIgnoresAll(events[1..], lib);
    }
  }

  /** Within one latch period the first non-empty payload decides everything:
      the outcome is that of its single step, so onSuccess fires at most once
      and never after a rejection. */
  lemma {:induction false} OneOutcomePerLatch(events: seq<string>, lib: JsLib)
    ensures var o := ScanAll(false, events, lib);
      && CountSuccess(o.effects) <= 1
      && (o.alerted ==> CountSuccess(o.effects) == 0)
      && ((forall i :: 0 <= i < |events| ==> events[i] == "") ==> o == ScanOutcome(false, [], false))
      && ((exists i :: 0 <= i < |events| && events[i] != "") ==> o.scanned)
      && (FirstNonEmpty(events) < |events| ==> o == ScanStep(false, events[FirstNonEmpty(events)], lib))
    decreases |events|
  {
    if events != [] {
      var first := ScanStep(false, events[0], lib);
      if events[0] == "" {
        OneOutcomePerLatch(events[1..], lib);
        var rest := ScanAll(false, events[1..], lib);
        assert first == ScanOutcome(false, [], false);
        assert [] + rest.effects == rest.effects;
        assert forall i :: 1 <= i < |events| ==> events[1..][i - 1] == events[i];
        if exists i :: 0 <= i < |events| && events[i] != "" {
          var i :| 0 <= i < |events| && events[i] != "";
          assert events[1..][i - 1] != "";
        }
      } else {
        LatchedIgnoresAll(events[1..], lib);
        assert first.effects + [] == first.effects;
        match Validate(events[0], lib) {
          case Accepted(p) =>
            assert first.effects == [NotifySuccess(p), NotifyClose];
            assert first.effects[1..] == [NotifyClose];
            assert CountSuccess([NotifyClose]) == 0 by {
              assert [NotifyClose][1..] == [];
            }
            assert ScanAll(false, events, lib).effects == first.effects;
          case Rejected(e) =>
            assert first.effects[1..] == [];
        }
      }
    }
  }

  // ---------------------------------------------------------------------
  // The modal component.

  class QrScanner {
    var scanned: bool
    var alertOpen: bool
    var effects: seq<QrEffect>

    /** Records that the "Invalid QR Code" alert only follows a scan that closed
        the latch. Every method states its whole new state, so no other
        contract depends on it. */
    ghost predicate Valid()
      reads this
    {
      alertOpen ==> scanned
    }

    constructor ()
      ensures Valid() && !scanned && !alertOpen && effects == []
    {
      scanned := false;
      alertOpen := false;
      effects := [];
    }

    /** handleBarCodeScanned. */
    method HandleBarCodeScanned(data: string, lib: JsLib)
      requires Valid()
      modifies this
      ensures Valid()
      ensures var o := ScanStep(old(scanned), data, lib);
        && scanned == o.scanned
        && effects == old(effects) + o.effects
        && alertOpen == (old(alertOpen) || o.alerted)
    {
      if scanned || data == "" {
        return;
      }
      scanned := true;
      var verdict := Validate(data, lib);
      match verdict {
        case Accepted(p) =>
          effects := effects + [NotifySuccess(p)];
          effects := effects + [NotifyClose];
        case Rejected(e) =>
          effects := effects + [ShowInvalidAlert(AlertBody(e))];
          alertOpen := true;
      }
    }

    /** "Try Again" in the alert re-arms the scanner. */
    method TryAgain()
      requires Valid() && alertOpen
      modifies this
      ensures Valid()
      ensures !scanned && !alertOpen && effects == old(effects)
    {
      scanned := false;
      alertOpen := false;
    }

    /** "Cancel" in the alert closes the modal and leaves the latch closed. */
    method Cancel()
      requires Valid() && alertOpen
      modifies this
      ensures Valid()
      ensures scanned == old(scanned) && !alertOpen && effects == old(effects) + [NotifyClose]
    {
      alertOpen := false;
      effects := effects + [NotifyClose];
    }

    /** "Tap to Scan Again", shown while the latch is closed and no alert covers it. */
    method TapToScanAgain()
      requires Valid() && scanned && !alertOpen
      modifies this
      ensures Valid()
      ensures !scanned && !alertOpen && effects == old(effects)
    {
      scanned := false;
    }

    /** The header close button and the system back action. */
    method Close()
      requires Valid() && !alertOpen
      modifies this
      ensures Valid()
      ensures scanned == old(scanned) && !alertOpen && effects == old(effects) + [NotifyClose]
    {
      effects := effects + [NotifyClose];
    }
  }
}
