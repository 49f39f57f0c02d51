/** The sale dashboard: the amount being entered, the merchant context
    resolved cache-first, and the face-payment sequence from opening the
    face-capture modal to the single payment request sent per Continue press. */
module Dashboard {

  import AE = AmountEntry
  import FC = FaceCapture

  /** The record cached under "businessData". */
  datatype BusinessData = BusinessData(receiverId: string, associateId: string)

  /** What reading "businessData" yields: nothing (null or an empty string), a
      value that `JSON.parse` or the destructuring rejects or a read that
      itself fails (both land in the catch block), or a record. */
  datatype CacheSlot = Empty | Unreadable | Holds(data: BusinessData)

  /** The outcome of reading the token, decoding it and fetching the business
      profile of its `userId`: `getToken` or `jwtDecode` fails before any
      lookup is issued, the lookup itself fails, or it yields the profile. */
  datatype ProfileFetch = TokenFailed | LookupFailed | Fetched(userId: string, businessId: string)

  /** The body of one face-payment request. */
  datatype PaymentRequest = PaymentRequest(faceId: string, amount: string, payMethod: string, receiverId: string, associateId: string)

  datatype Alert = Alert(title: string, message: string)

  const FaceIdMethod := "FACEID"

  const ProfileErrorText: string := "Failed to load business profile. Please try again."
  const FaceSuccessText: string := "Face enrollment completed successfully!"
  const PaymentSuccessText: string := "Payment completed successfully!"
  const PaymentFailureText: string := "Payment failed. Please try again later."

  function ProfileErrorAlert(): Alert {
    Alert("Error", ProfileErrorText)
  }

  function FaceSuccessAlert(): Alert {
    Alert("Success", FaceSuccessText)
  }

  function PaymentAlert(ok: bool): Alert {
    if ok then Alert("Success", PaymentSuccessText)
    else Alert("Error", PaymentFailureText)
  }

  /** Every field of the component, as one value. */
  datatype Snapshot = Snapshot(
    amount: string, faceId: string, showFaceID: bool, receiver: string, associate: string,
    isInitialized: bool, isLoading: bool, cache: CacheSlot, profileLookups: nat,
    submitted: seq<PaymentRequest>, pending: nat, alerts: seq<Alert>, continueOffered: bool)

  /** Once initialized, the context on screen is the one in the cache. */
  predicate Consistent(s: Snapshot) {
    s.isInitialized ==> s.cache == Holds(BusinessData(s.receiver, s.associate))
  }

  /** One run of `initializeData`: nothing once initialized; otherwise the
      cached record, or the token and at most one profile lookup whose result
      is written back, and the error alert when the cache cannot be read, the
      token cannot be read or decoded, the lookup fails or the write fails. */
  function InitStep(s: Snapshot, fetch: ProfileFetch, writeOk: bool): Snapshot {
    if s.isInitialized then s
    else match s.cache
      case Holds(d) =>
        s.(receiver := d.receiverId, associate := d.associateId, isInitialized := true, isLoading := false)
      case Unreadable =>
        s.(isLoading := false, alerts := s.alerts + [ProfileErrorAlert()])
      case Empty =>
        if fetch.Fetched? && writeOk then
          s.(cache := Holds(BusinessData(fetch.businessId, fetch.userId)),
             receiver := fetch.businessId, associate := fetch.userId,
             isInitialized := true, isLoading := false, profileLookups := s.profileLookups + 1)
        else
          s.(isLoading := false, profileLookups := s.profileLookups + (if fetch.TokenFailed? then 0 else 1),
             alerts := s.alerts + [ProfileErrorAlert()])
  }

  /** What one run of `initializeData` achieves. It ends initialized exactly on
      the success paths and then shows the cached context. A lookup is issued
      exactly when nothing is cached and the token yields a user id. The error alert is raised exactly
      when a run fails. The amount, the face id and the payments are untouched. */
  lemma InitStepOutcome(s: Snapshot, fetch: ProfileFetch, writeOk: bool)
    requires Consistent(s)
    ensures var r := InitStep(s, fetch, writeOk);
      && Consistent(r)
      && (r.isInitialized <==> s.isInitialized || s.cache.Holds? || (s.cache.Empty? && fetch.Fetched? && writeOk))
      && r.profileLookups == s.profileLookups + (if !s.isInitialized && s.cache.Empty? && !fetch.TokenFailed? then 1 else 0)
      && r.alerts == s.alerts + (if s.isInitialized || r.isInitialized then [] else [ProfileErrorAlert()])
      && (s.isInitialized ==> r.isLoading == s.isLoading)
      && (!s.isInitialized ==> !r.isLoading)
      && (s.cache.Holds? ==> r.cache == s.cache)
      && (!s.isInitialized && s.cache.Empty? && fetch.Fetched? && writeOk ==>
            r.receiver == fetch.businessId && r.associate == fetch.userId &&
            r.cache == Holds(BusinessData(fetch.businessId, fetch.userId)))
      && r.amount == s.amount && r.faceId == s.faceId && r.showFaceID == s.showFaceID
      && r.submitted == s.submitted && r.pending == s.pending && r.continueOffered == s.continueOffered
  {
  }

  /** Once a run succeeds, later runs change nothing: the profile is looked up
      at most once per mount whatever the later outcomes. */
  lemma InitStepSettles(s: Snapshot, f1: ProfileFetch, w1: bool, f2: ProfileFetch, w2: bool)
    requires InitStep(s, f1, w1).isInitialized
    ensures InitStep(InitStep(s, f1, w1), f2, w2) == InitStep(s, f1, w1)
  {
  }

  class Dashboard {
    var amount: string
    var faceId: string
    var showFaceID: bool
    var receiver: string
    var associate: string
    var isInitialized: bool
    var isLoading: bool
    /** The persisted "businessData" item. */
    var cache: CacheSlot
    /** How many business-profile lookups have been issued. */
    var profileLookups: nat
    /** Every payment request sent, in order. */
    var submitted: seq<PaymentRequest>
    /** Requests whose response has not arrived yet. */
    var pending: nat
    /** Every alert raised, in order. */
    var alerts: seq<Alert>
    /** The face-success alert with its Continue button is open. */
    var continueOffered: bool

    function State(): Snapshot
      reads this
    {
      Snapshot(amount, faceId, showFaceID, receiver, associate, isInitialized, isLoading,
               cache, profileLookups, submitted, pending, alerts, continueOffered)
    }

    /** Once initialized, the context on screen is the one in the cache. */
    ghost predicate Valid()
      reads this
    {
      Consistent(State())
    }

    /** The request body `formData`, built from the current state. */
    function FormData(): (r: PaymentRequest)
      reads this
      ensures r.payMethod == FaceIdMethod
      ensures r.faceId == faceId && r.amount == amount
      ensures r.receiverId == receiver && r.associateId == associate
    {
      PaymentRequest(faceId, amount, FaceIdMethod, receiver, associate)
    }

    /** The component mounts with `stored` in persistent storage. */
    constructor (stored: CacheSlot)
      ensures Valid()
      ensures State() == Snapshot("", "", false, "", "", false, false, stored, 0, [], 0, [], false)
    {
      amount, faceId, showFaceID := "", "", false;
      receiver, associate := "", "";
      isInitialized, isLoading := false, false;
      cache, profileLookups := stored, 0;
      submitted, pending, alerts, continueOffered := [], 0, [], false;
    }

    /** The mount effect: `initializeData` runs while not initialized. The
        lookup's outcome and whether the storage write succeeds are parameters. */
    method InitializeData(fetch: ProfileFetch, writeOk: bool)
      requires Valid()
      modifies this
      ensures Valid()
      ensures State() == InitStep(old(State()), fetch, writeOk)
    {
      InitStepOutcome(State(), fetch, writeOk);
      if isInitialized {
        return;
      }
      match cache {
        case Holds(d) => UseCached(d);
        case Unreadable => ReportProfileError();
        case Empty => LoadProfile(fetch, writeOk);
      }
    }

    /** The cached record is taken as the merchant context. */
    method UseCached(d: BusinessData)
      modifies this
      ensures State() == old(State()).(receiver := d.receiverId, associate := d.associateId,
                                         isInitialized := true, isLoading := false)
    {
      receiver, associate := d.receiverId, d.associateId;
      isInitialized, isLoading := true, false;
    }

    /** The catch block of `initializeData`: the error alert, loading over. */
    method ReportProfileError()
      modifies this
      ensures State() == old(State()).(isLoading := false, alerts := old(alerts) + [ProfileErrorAlert()])
    {
      alerts, isLoading := alerts + [ProfileErrorAlert()], false;
    }

    /** The branch of `initializeData` with nothing cached: the token, one
        profile lookup unless the token fails, and the record written back
        before it is used. */
    method LoadProfile(fetch: ProfileFetch, writeOk: bool)
      requires !isInitialized && cache.Empty?
      modifies this
      ensures State() == InitStep(old(State()), fetch, writeOk)
    {
      if fetch.Fetched? && writeOk {
        StoreProfile(fetch.businessId, fetch.userId);
      } else {
        if !fetch.TokenFailed? {
          profileLookups := profileLookups + 1;
        }
        ReportProfileError();
      }
    }

    /** The lookup succeeded and the record was written: use it. */
    method StoreProfile(businessId: string, userId: string)
      modifies this
      ensures State() == old(State()).(cache := Holds(BusinessData(businessId, userId)),
             receiver := businessId, associate := userId,
             isInitialized := true, isLoading := false, profileLookups := old(profileLookups) + 1)
    {
      cache := Holds(BusinessData(businessId, userId));
      receiver, associate, isInitialized := businessId, userId, true;
      profileLookups, isLoading := profileLookups + 1, false;
    }

    /** handleNumberPress. */
    method NumberPress(num: string)
      requires Valid()
      modifies this
      ensures Valid()
      ensures State() == old(State()).(amount := AE.AfterDigit(old(amount), num))
    {
      if AE.DigitBlocked(amount) {
        return;
      }
      amount := amount + num;
    }

    /** handleDecimalPress. */
    method DecimalPress()
      requires Valid()
      modifies this
      ensures Valid()
      ensures State() == old(State()).(amount := AE.AfterPoint(old(amount)))
    {
      if '.' !in amount {
        amount := if amount == "" then "0." else amount + ".";
      }
    }

    /** handleDeletePress. */
    method DeletePress()
      requires Valid()
      modifies this
      ensures Valid()
      ensures State() == old(State()).(amount := AE.AfterBackspace(old(amount)))
    {
      if amount != "" {
        amount := amount[..|amount| - 1];
      }
    }

    /** handleClearPress. */
    method ClearPress()
      requires Valid()
      modifies this
      ensures Valid()
      ensures State() == old(State()).(amount := AE.AfterReset(old(amount)))
    {
      amount := "";
    }

    /** A key of the keypad, routed to its handler. */
    method Press(k: AE.Key)
      requires Valid()
      modifies this
      ensures Valid()
      ensures State() == old(State()).(amount := AE.Apply(old(amount), k))
    {
      match k {
        case Digit(num) => NumberPress(num);
        case Point => DecimalPress();
        case Backspace => DeletePress();
        case Reset => ClearPress();
      }
    }

    /** handleFaceIDPress: open the face-capture modal. */
    method FaceIDPress()
      requires Valid()
      modifies this
      ensures Valid()
      ensures State() == old(State()).(showFaceID := true)
    {
      showFaceID := true;
    }

    /** The modal's onClose. */
    method FaceIDClose()
      requires Valid()
      modifies this
      ensures Valid()
      ensures State() == old(State()).(showFaceID := false)
    {
      showFaceID := false;
    }

    /** handleFaceIDSuccess: keep the facial id, close the modal and offer Continue. */
    method FaceIDSuccess(facialId: string)
      requires Valid()
      modifies this
      ensures Valid()
      ensures State() == old(State()).(faceId := facialId, showFaceID := false,
                                         alerts := old(alerts) + [FaceSuccessAlert()],
                                         continueOffered := true)
    {
      faceId := facialId;
      showFaceID := false;
      alerts := alerts + [FaceSuccessAlert()];
      continueOffered := true;
    }

    /** handleFacePayment: one payment request with the current form data. */
    method FacePayment()
      requires Valid()
      modifies this
      ensures Valid()
      ensures State() == old(State()).(submitted := old(submitted) + [old(FormData())],
                                         pending := old(pending) + 1)
    {
      submitted := submitted + [FormData()];
      pending := pending + 1;
    }

    /** The Continue button of the face-success alert: the only caller of the
        payment, and each press sends exactly one request. */
    method PressContinue()
      requires Valid() && continueOffered
      modifies this
      ensures Valid()
      ensures State() == old(State()).(submitted := old(submitted) + [old(FormData())],
                                         pending := old(pending) + 1, continueOffered := false)
    {
      continueOffered := false;
      FacePayment();
    }

    /** The response to the oldest pending request arrives. */
    method PaymentSettled(ok: bool)
      requires Valid() && pending > 0
      modifies this
      ensures Valid()
      ensures State() == old(State()).(pending := old(pending) - 1,
                                         alerts := old(alerts) + [PaymentAlert(ok)])
    {
      pending := pending - 1;
      alerts := alerts + [PaymentAlert(ok)];
    }

    /** The props binding of the face-capture modal: `setFaceId`, `onSuccess`
        and `onClose` land here; its alerts and reloads stay in the modal. */
    method OnFaceEffect(e: FC.Effect)
      requires Valid()
      modifies this
      ensures Valid()
      ensures e.SetFaceId? ==> State() == old(State()).(faceId := e.id)
      ensures e.NotifySuccess? ==>
        State() == old(State()).(faceId := e.data.facialId, showFaceID := false,
                                   alerts := old(alerts) + [FaceSuccessAlert()], continueOffered := true)
      ensures e.NotifyClose? ==> State() == old(State()).(showFaceID := false)
      ensures e.ShowAlert? || e.ReloadPage? ==> State() == old(State())
    {
      match e {
        case SetFaceId(id) => faceId := id;
        case NotifySuccess(data) => FaceIDSuccess(data.facialId);
        case NotifyClose => FaceIDClose();
        case ShowAlert(_) =>
        case ReloadPage =>
      }
    }
  }
}
