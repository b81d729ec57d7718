/** Concrete runs of the panel: a verified module, a module whose code differs, a successful
    verification and a failed one. */
module PanelScenarios {
  import opened JsValues
  import opened Packages
  import opened PanelState
  import CodeView

  const Coin := Some("coin")
  const Packages3 := Some([PackageMetadata("framework", "3", [ModuleMetadata("coin")])])

  function Check(isVerified: bool, status: string, upgradeNumber: string): Event {
    CheckSettled(Fulfilled(VerifyCheckResponse("testnet", "0x1", "coin", isVerified, status, Some(upgradeNumber), "")))
  }

  function Verified(isVerified: bool): Event {
    VerifySettled(Fulfilled(VerifyResponse("0x1", "coin", 0, isVerified, 0, "", "", Some("3"), "")))
  }

  lemma CurrentIsThree()
    ensures CurrentUpgradeNumber(Packages3, Coin) == Some("3")
  {
  }

  /** A verified status for upgrade 3, with the package list giving 3 as current: verified,
      both numbers 3, no warning. */
  lemma VerifiedModule()
    ensures Run([Rendered(Packages3, Coin), Check(true, "VERIFIED", "3")])
         == State(true, Some("3"), Some("3"), "", false, false)
  {
    var evs := [Rendered(Packages3, Coin), Check(true, "VERIFIED", "3")];
    assert evs[..1] == [evs[0]];
    assert [evs[0]][..0] == [];
    CurrentIsThree();
    assert Run(evs[..1]) == Initial.(currentNum := Some("3"));
    assert "VERIFIED" != VerifiedDifferent by { assert |"VERIFIED"| != |VerifiedDifferent|; }
  }

  /** A VERIFIED_DIFFERENT status for upgrade 2: not verified, verified number 2, the warning
      set and shown, and the Verify button disabled. */
  lemma DifferentModule(source: string)
    requires source != ""
    ensures var s := Run([Rendered(Packages3, Coin), Check(false, VerifiedDifferent, "2")]);
      && !s.verified && s.verifiedNum == Some("2") && s.verifyDifferenceMsg == DifferenceWarning
      && VerifyDisabled(s)
      && CodeView.Render(s, Some(source)).notice == CodeView.DifferenceNotice(DifferenceWarning)
  {
  }

  /** A clean unverified status, a press and a fulfilled verification: the verification runs,
      then the module is verified and the button stays disabled with the caption "Verified". */
  lemma SuccessfulVerification()
    ensures var evs := [Check(false, "NOT_VERIFIED", "3"), VerifyPressed];
      && Run(evs).verifyInProgress && VerifyDisabled(Run(evs))
      && Run(evs + [Verified(true)]).verified && !Run(evs + [Verified(true)]).verifyInProgress
      && VerifyDisabled(Run(evs + [Verified(true)]))
      && CodeView.Render(Run(evs + [Verified(true)]), None).caption == CodeView.Caption("Verified")
  {
  }

  /** A clean unverified status, a press and a rejected verification: back to idle, still not
      verified, the button enabled again. */
  lemma FailedVerification()
    ensures var evs := [Check(false, "NOT_VERIFIED", "3"), VerifyPressed, VerifySettled(Rejected)];
      && !Run(evs).verifyInProgress && !Run(evs).verified && !VerifyDisabled(Run(evs))
  {
  }
}
