/** The verification panel's view state and the events that change it: the status-check
    effect that runs after every render, the settling of a status check, a press of the
    Verify button, and the settling of the verify request. */
module PanelState {
  import opened JsValues
  import opened Packages

  /** The status reported by `verification/aptos/verify-check`. The upgrade policy is carried
      through unread. */
  datatype VerifyCheckResponse = VerifyCheckResponse(
    chainId: string, account: string, moduleName: string,
    isVerified: bool, status: string,
    internalUpgradeNumber: Option<string>, internalUpgradePolicy: string)

  /** The outcome of an explicit verification request to `verification/aptos`; only
      `isVerified` is read. */
  datatype VerifyResponse = VerifyResponse(
    account: string, moduleName: string, requestedTime: int,
    isVerified: bool, byteCode: int, onChainByteCode: string, offChainByteCode: string,
    internalUpgradeNumber: Option<string>, internalUpgradePolicy: string)

  const VerifiedDifferent := "VERIFIED_DIFFERENT"
  const DifferenceWarning := "\U{2757}\U{FE0F} Warning: This code is different to the real code on blockchain."

  /** The six pieces of view state of the code panel. */
  datatype State = State(
    verified: bool,
    currentNum: Option<string>,
    verifiedNum: Option<string>,
    verifyDifferenceMsg: string,
    isVerifyDifference: bool,
    verifyInProgress: bool)

  /** The state on mount. The difference flag starts raised although no message is set. */
  const Initial := State(false, Some(""), Some(""), "", true, false)

  /** The Verify button is disabled while a verification runs, once verified, and while a
      difference is flagged. */
  predicate VerifyDisabled(s: State) {
    s.verifyInProgress || s.verified || s.isVerifyDifference
  }

  /** The difference flag and the difference message agree: the flag is raised exactly when
      the fixed warning is set, and no other message is ever set. */
  predicate Reconciled(s: State) {
    && (s.isVerifyDifference <==> s.verifyDifferenceMsg != "")
    && (s.verifyDifferenceMsg == "" || s.verifyDifferenceMsg == DifferenceWarning)
  }

  // ---- transitions ----

  /** The synchronous part of the status effect: the current upgrade number is looked up again. */
  function RunStatusEffect(s: State, packages: Option<seq<PackageMetadata>>, moduleName: Option<string>): State {
    s.(currentNum := CurrentUpgradeNumber(packages, moduleName))
  }

  /** A fulfilled status check is applied. */
  function ApplyCheck(s: State, r: VerifyCheckResponse): State {
    var different := r.status == VerifiedDifferent;
    s.(verifyDifferenceMsg := if different then DifferenceWarning else "",
       isVerifyDifference := different,
       verified := r.isVerified,
       verifiedNum := r.internalUpgradeNumber)
  }

  /** A status check settles; a rejected one is not caught and changes nothing. */
  function SettleCheck(s: State, o: Settled<VerifyCheckResponse>): State {
    match o
    case Fulfilled(r) => ApplyCheck(s, r)
    case Rejected => s
  }

  /** `verifyClick` starts: the verification is marked in progress. */
  function StartVerify(s: State): State {
    s.(verifyInProgress := true)
  }

  /** The verify request settles: fulfilled, it records the verdict; rejected, it only ends
      the in-progress mark. */
  function SettleVerify(s: State, o: Settled<VerifyResponse>): State {
    match o
    case Fulfilled(r) => s.(verifyInProgress := false, verified := r.isVerified)
    case Rejected => s.(verifyInProgress := false)
  }

  // ---- event traces ----

  datatype Event =
    | Rendered(packages: Option<seq<PackageMetadata>>, moduleName: Option<string>)
    | CheckSettled(check: Settled<VerifyCheckResponse>)
    | VerifyPressed
    | VerifySettled(outcome: Settled<VerifyResponse>)

  /** One event. A press of a disabled button does nothing. */
  function Step(s: State, e: Event): State {
    match e
    case Rendered(packages, moduleName) => RunStatusEffect(s, packages, moduleName)
    case CheckSettled(o) => SettleCheck(s, o)
    case VerifyPressed => if VerifyDisabled(s) then s else StartVerify(s)
    case VerifySettled(o) => SettleVerify(s, o)
  }

  /** The state after a sequence of events, starting from the state on mount. */
  function Run(events: seq<Event>): State {
    if events == [] then Initial else Step(Run(events[..|events| - 1]), events[|events| - 1])
  }

  /** The last status check that was fulfilled, if any. */
  function LastCheck(events: seq<Event>): Option<VerifyCheckResponse> {
    if events == [] then None
    else match events[|events| - 1]
      case CheckSettled(Fulfilled(r)) => Some(r)
      case _ => LastCheck(events[..|events| - 1])
  }

  /** The `isVerified` of the last fulfilled status check or verify request, else false. */
  function LastVerdict(events: seq<Event>): bool {
    if events == [] then false
    else match events[|events| - 1]
      case CheckSettled(Fulfilled(r)) => r.isVerified
      case VerifySettled(Fulfilled(r)) => r.isVerified
      case _ => LastVerdict(events[..|events| - 1])
  }

  /** The packages and module name of the last render, if any. */
  function LastRender(events: seq<Event>): Option<(Option<seq<PackageMetadata>>, Option<string>)> {
    if events == [] then None
    else match events[|events| - 1]
      case Rendered(p, m) => Some((p, m))
      case _ => LastRender(events[..|events| - 1])
  }

  /** Whether the last verify-related event (a press or a settling) is a press. */
  function PressPending(events: seq<Event>): bool {
    if events == [] then false
    else match events[|events| - 1]
      case VerifyPressed => true
      case VerifySettled(_) => false
      case _ => PressPending(events[..|events| - 1])
  }
}
