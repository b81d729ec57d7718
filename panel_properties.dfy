/** What the panel's transitions guarantee, one event at a time and over whole event traces. */
module PanelProperties {
  import opened JsValues
  import opened Packages
  import opened PanelState

  /** On mount the Verify button is disabled, and the difference flag is raised without a
      message: flag and message only agree once a status check has been applied. */
  lemma InitialDisablesVerify()
    ensures VerifyDisabled(Initial)
    ensures Initial.isVerifyDifference && Initial.verifyDifferenceMsg == "" && !Reconciled(Initial)
    ensures !Initial.verified && !Initial.verifyInProgress
    ensures Initial.currentNum == Some("") && Initial.verifiedNum == Some("")
  {
  }

  /** Applying a status check: the flag and the fixed warning are set exactly when the status
      is VERIFIED_DIFFERENT, the verdict and verified number are copied whatever the status,
      and the current number and the in-progress mark are left alone. */
  lemma ApplyCheckReconciles(s: State, r: VerifyCheckResponse)
    ensures var t := ApplyCheck(s, r);
      && Reconciled(t)
      && (t.isVerifyDifference <==> r.status == VerifiedDifferent)
      && (t.verifyDifferenceMsg == DifferenceWarning <==> r.status == VerifiedDifferent)
      && (r.status != VerifiedDifferent ==> t.verifyDifferenceMsg == "")
      && t.verified == r.isVerified
      && t.verifiedNum == r.internalUpgradeNumber
      && t.currentNum == s.currentNum
      && t.verifyInProgress == s.verifyInProgress
  {
  }

  /** Applying the same status check again changes nothing, and what it sets does not depend
      on the state it was applied to. */
  lemma ApplyCheckIdempotent(s: State, s': State, r: VerifyCheckResponse)
    ensures ApplyCheck(ApplyCheck(s, r), r) == ApplyCheck(s, r)
    ensures s.currentNum == s'.currentNum && s.verifyInProgress == s'.verifyInProgress
        ==> ApplyCheck(s, r) == ApplyCheck(s', r)
  {
  }

  /** Running the status effect twice with the same inputs is the same as running it once, and
      it only sets the current number, which depends only on the packages and the module. */
  lemma StatusEffectIdempotent(s: State, packages: Option<seq<PackageMetadata>>, moduleName: Option<string>)
    ensures var t := RunStatusEffect(s, packages, moduleName);
      && RunStatusEffect(t, packages, moduleName) == t
      && t.currentNum == CurrentUpgradeNumber(packages, moduleName)
      && t.(currentNum := s.currentNum) == s
  {
  }

  /** Once flag and message agree, every event keeps them agreeing. */
  lemma StepPreservesReconciled(s: State, e: Event)
    requires Reconciled(s)
    ensures Reconciled(Step(s, e))
  {
  }

  /** Starting a verification raises only the in-progress mark. A fulfilled verification
      clears it and records the verdict; a rejected one only clears it. Neither touches the
      current or verified number, the difference message or the difference flag. */
  lemma VerifyTouchesOnlyVerdictAndProgress(s: State, o: Settled<VerifyResponse>)
    ensures StartVerify(s).verifyInProgress && StartVerify(s).(verifyInProgress := s.verifyInProgress) == s
    ensures var t := SettleVerify(s, o);
      && !t.verifyInProgress
      && t.verified == (if o.Fulfilled? then o.value.isVerified else s.verified)
      && t.currentNum == s.currentNum && t.verifiedNum == s.verifiedNum
      && t.verifyDifferenceMsg == s.verifyDifferenceMsg && t.isVerifyDifference == s.isVerifyDifference
  {
  }

  /** A press of the button does nothing while it is disabled; while it is enabled the press
      starts a verification, which disables the button. */
  lemma PressRespectsDisabled(s: State)
    ensures VerifyDisabled(s) ==> Step(s, VerifyPressed) == s
    ensures !VerifyDisabled(s) ==> Step(s, VerifyPressed) == StartVerify(s) && VerifyDisabled(StartVerify(s))
  {
  }

  // ---- traces ----

  /** After any events, the difference flag, the message and the verified number are those set
      by the last fulfilled status check; before the first one they keep their initial values. */
  lemma {:induction false} RunTracksLastCheck(events: seq<Event>)
    ensures var s := Run(events);
      match LastCheck(events)
      case None =>
        s.isVerifyDifference && s.verifyDifferenceMsg == "" && s.verifiedNum == Some("")
      case Some(r) =>
        && (s.isVerifyDifference <==> r.status == VerifiedDifferent)
        && s.verifyDifferenceMsg == (if r.status == VerifiedDifferent then DifferenceWarning else "")
        && s.verifiedNum == r.internalUpgradeNumber
  {
    if events != [] {
      RunTracksLastCheck(events[..|events| - 1]);
    }
  }

  /** After any events, the current upgrade number is the lookup made by the last render; no
      status check or verification ever changes it. */
  lemma {:induction false} RunTracksLastRender(events: seq<Event>)
    ensures Run(events).currentNum ==
      match LastRender(events)
      case None => Some("")
      case Some((packages, moduleName)) => CurrentUpgradeNumber(packages, moduleName)
  {
    if events != [] {
      RunTracksLastRender(events[..|events| - 1]);
    }
  }

  /** After any events, `verified` is the verdict of whichever fulfilled status check or verify
      request came last, and false before either. */
  lemma {:induction false} RunTracksLastVerdict(events: seq<Event>)
    ensures Run(events).verified == LastVerdict(events)
  {
    if events != [] {
      RunTracksLastVerdict(events[..|events| - 1]);
    }
  }

  /** A verification is in progress only while the last press has not yet been followed by a
      settling of the verify request. */
  lemma {:induction false} InProgressOnlyWhilePressPending(events: seq<Event>)
    ensures Run(events).verifyInProgress ==> PressPending(events)
  {
    if events != [] {
      InProgressOnlyWhilePressPending(events[..|events| - 1]);
    }
  }

  /** Flag and message agree in every state reached after the first fulfilled status check. */
  lemma ReconciledAfterFirstCheck(events: seq<Event>)
    requires LastCheck(events).Some?
    ensures Reconciled(Run(events))
  {
    RunTracksLastCheck(events);
  }

  /** The Verify button is enabled only when a status check has been applied, the last one
      applied did not report VERIFIED_DIFFERENT, and the last verdict was negative. */
  lemma EnabledOnlyAfterCleanCheck(events: seq<Event>)
    requires !VerifyDisabled(Run(events))
    ensures LastCheck(events).Some? && LastCheck(events).value.status != VerifiedDifferent
    ensures !LastVerdict(events)
  {
    RunTracksLastCheck(events);
    RunTracksLastVerdict(events);
  }

  // ---- what the code does not enforce ----

  /** A status check may report a verified module with a different code: nothing forces
      `verified` to false, so the button says "Verified" while the difference is flagged. */
  lemma DifferenceDoesNotForceUnverified()
    ensures var r := VerifyCheckResponse("", "", "", true, VerifiedDifferent, Some("2"), "");
      var s := ApplyCheck(Initial, r);
      s.verified && s.isVerifyDifference && s.verifyDifferenceMsg == DifferenceWarning
  {
  }

  /** Verified is not final: a later status check reporting the module unverified enables the
      Verify button again. */
  lemma VerifiedIsNotFinal(s: State, r: VerifyCheckResponse)
    requires s.verified && !s.verifyInProgress
    requires !r.isVerified && r.status != VerifiedDifferent
    ensures VerifyDisabled(s) && !VerifyDisabled(ApplyCheck(s, r))
  {
  }
}
