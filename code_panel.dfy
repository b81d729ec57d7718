/** The `Code` component's verification panel as an object: the six state hooks are fields,
    and each effect, handler and promise continuation is a method that updates them. Every
    method is proved against the transition of the same name in `PanelState`, so the
    properties proved there hold of the object. Requests are returned rather than sent. */
module CodeSnippet {
  import opened JsValues
  import opened Packages
  import opened PanelState
  import opened Backend
  import opened QueryStrings

  class CodePanel {
    var verified: bool
    var currentNum: Option<string>
    var verifiedNum: Option<string>
    var verifyDifferenceMsg: string
    var isVerifyDifference: bool
    var verifyInProgress: bool

    /** The panel's state as a value. */
    function Snapshot(): State
      reads this
    {
      State(verified, currentNum, verifiedNum, verifyDifferenceMsg, isVerifyDifference, verifyInProgress)
    }

    /** Mounting: every hook takes its initial value. */
    constructor ()
      ensures Snapshot() == Initial
      ensures VerifyDisabled(Snapshot())
    {
      verified := false;
      currentNum := Some("");
      verifiedNum := Some("");
      verifyDifferenceMsg := "";
      isVerifyDifference := true;
      verifyInProgress := false;
    }

    /** The effect that runs after every render: it looks up the current upgrade number and
        returns the status-check request it issues. */
    method StatusEffect(packages: Option<seq<PackageMetadata>>, moduleName: Option<string>,
                        chainId: string, account: Option<string>) returns (req: Request)
      modifies this
      ensures Snapshot() == RunStatusEffect(old(Snapshot()), packages, moduleName)
      ensures currentNum == CurrentUpgradeNumber(packages, moduleName)
      ensures req == Request(CheckEndpoint, CheckQuery(chainId, account, moduleName))
    {
      currentNum := CurrentUpgradeNumber(packages, moduleName);
      req := Request(CheckEndpoint, CheckQuery(chainId, account, moduleName));
    }

    /** The status check settles. Fulfilled, its status decides the difference message and
        flag, and its verdict and upgrade number are copied; rejected, nothing changes. */
    method ApplyVerifyCheck(o: Settled<VerifyCheckResponse>)
      modifies this
      ensures Snapshot() == SettleCheck(old(Snapshot()), o)
      ensures o.Fulfilled? ==> Reconciled(Snapshot())
      ensures o.Fulfilled? ==> (isVerifyDifference <==> o.value.status == VerifiedDifferent)
      ensures o.Fulfilled? ==> verified == o.value.isVerified && verifiedNum == o.value.internalUpgradeNumber
      ensures o.Rejected? ==> Snapshot() == old(Snapshot())
    {
      if o.Fulfilled? {
        var verifyCheck := o.value;
        if verifyCheck.status == VerifiedDifferent {
          verifyDifferenceMsg := DifferenceWarning;
          isVerifyDifference := true;
        } else {
          verifyDifferenceMsg := "";
          isVerifyDifference := false;
        }
        verified := verifyCheck.isVerified;
        verifiedNum := verifyCheck.internalUpgradeNumber;
      }
    }

    /** `verifyClick`: marks the verification in progress and returns the verify request,
        stamped with the clock reading `timestamp` in milliseconds. */
    method VerifyClick(chainId: string, account: Option<string>, moduleName: Option<string>, timestamp: nat)
      returns (req: Request)
      modifies this
      ensures Snapshot() == StartVerify(old(Snapshot()))
      ensures req == Request(VerifyEndpoint, VerifyQuery(chainId, account, moduleName, timestamp))
    {
      verifyInProgress := true;
      req := Request(VerifyEndpoint, VerifyQuery(chainId, account, moduleName, timestamp));
    }

    /** A press of the Verify button: a disabled button ignores it, an enabled one runs
        `verifyClick`. */
    method PressVerify(chainId: string, account: Option<string>, moduleName: Option<string>, timestamp: nat)
      returns (req: Option<Request>)
      modifies this
      ensures Snapshot() == Step(old(Snapshot()), VerifyPressed)
      ensures req.Some? <==> !VerifyDisabled(old(Snapshot()))
      ensures req.Some? ==> req.value == Request(VerifyEndpoint, VerifyQuery(chainId, account, moduleName, timestamp))
    {
      if verifyInProgress || verified || isVerifyDifference {
        req := None;
      } else {
        var r := VerifyClick(chainId, account, moduleName, timestamp);
        req := Some(r);
      }
    }

    /** The verify request settles: the in-progress mark is cleared, and a fulfilled request
        records its verdict. */
    method SettleVerifyRequest(o: Settled<VerifyResponse>)
      modifies this
      ensures Snapshot() == SettleVerify(old(Snapshot()), o)
      ensures !verifyInProgress
      ensures verified == (if o.Fulfilled? then o.value.isVerified else old(verified))
      ensures currentNum == old(currentNum) && verifiedNum == old(verifiedNum)
      ensures verifyDifferenceMsg == old(verifyDifferenceMsg) && isVerifyDifference == old(isVerifyDifference)
    {
      match o {
        case Fulfilled(verify) =>
          verifyInProgress := false;
          verified := verify.isVerified;
        case Rejected =>
          verifyInProgress := false;
      }
    }
  }
}
