/** What the panel renders from its state and the transformed source: the badge, the Verify
    button, the upgrade numbers, the notice under the header, the copy/expand controls, the
    code body, and the scroll offset of the code box. The bytecode transformer and the
    function-line locator are collaborators passed in as functions. */
module CodeView {
  import opened JsValues
  import opened Packages
  import opened PanelState
  import PanelProperties

  const NoCodeBytecode := "0x"
  const LineHeightInPx := 24
  const NotYet := "Not yet"

  datatype Badge = VerifiedBadge | OwnerProvidedTooltip
  datatype ButtonLabel = Spinner | Caption(text: string)
  datatype Notice = NoNotice | DifferenceNotice(text: string) | Disclaimer
  datatype Body = Unavailable | Highlighted(source: string)

  datatype View = View(
    badge: Badge,
    verifyDisabled: bool,
    caption: ButtonLabel,
    verifiedNumText: string,
    currentNumText: string,
    copyAndExpand: bool,
    notice: Notice,
    body: Body)

  /** The source shown for a bytecode: none for the "no code" marker, else the transformer's
      output (which may itself be empty). */
  function SourceCode(bytecode: string, transform: string -> string): Option<string> {
    if bytecode == NoCodeBytecode then None else Some(transform(bytecode))
  }

  /** The line the code box scrolls to: 0 without source or without a selected function,
      else the locator's line for that function. */
  function StartingLineNumber(source: Option<string>, functionName: Option<string>,
                              locate: (string, string) -> int): int {
    if !Truthy(source) then 0
    else if !Truthy(functionName) then 0
    else locate(source.value, functionName.value)
  }

  /** The scroll offset the effect writes into the code box, which exists only when the code
      body is rendered. */
  function ScrollTop(source: Option<string>, startingLine: int): Option<int> {
    if Truthy(source) then Some(LineHeightInPx * startingLine) else None
  }

  function LabelOf(s: State): ButtonLabel {
    if s.verifyInProgress then Spinner
    else if s.verified then Caption("Verified")
    else Caption("Verify")
  }

  /** The verified upgrade number as displayed: "Not yet" when it is undefined or empty. */
  function VerifiedNumText(verifiedNum: Option<string>): string {
    if !Truthy(verifiedNum) then NotYet else verifiedNum.value
  }

  /** `{currentNum}` renders nothing for undefined. */
  function CurrentNumText(currentNum: Option<string>): string {
    if currentNum.Some? then currentNum.value else ""
  }

  function NoticeOf(s: State, source: Option<string>): Notice {
    if !Truthy(source) || s.verified then NoNotice
    else if s.verifyDifferenceMsg != "" then DifferenceNotice(s.verifyDifferenceMsg)
    else Disclaimer
  }

  function Render(s: State, source: Option<string>): View {
    View(
      if s.verified then VerifiedBadge else OwnerProvidedTooltip,
      VerifyDisabled(s),
      LabelOf(s),
      VerifiedNumText(s.verifiedNum),
      CurrentNumText(s.currentNum),
      Truthy(source),
      NoticeOf(s, source),
      if Truthy(source) then Highlighted(source.value) else Unavailable)
  }

  // ---- properties of the rendering ----

  /** The button is disabled exactly while a verification runs, once verified, or while a
      difference is flagged; it shows a spinner while in progress, else "Verified" when
      verified, else "Verify". */
  lemma ButtonMatchesState(s: State, source: Option<string>)
    ensures var v := Render(s, source);
      && (v.verifyDisabled <==> s.verifyInProgress || s.verified || s.isVerifyDifference)
      && (v.caption == Spinner <==> s.verifyInProgress)
      && (v.caption == Caption("Verified") <==> !s.verifyInProgress && s.verified)
      && (v.caption == Caption("Verify") <==> !s.verifyInProgress && !s.verified)
      && (v.badge == VerifiedBadge <==> s.verified)
  {
  }

  /** The verified number reads "Not yet" when it is undefined or empty and is shown as it is
      otherwise; an undefined current number shows as nothing. */
  lemma NumberTexts(s: State, source: Option<string>)
    ensures var v := Render(s, source);
      && (!Truthy(s.verifiedNum) ==> v.verifiedNumText == NotYet)
      && (Truthy(s.verifiedNum) ==> v.verifiedNumText == s.verifiedNum.value)
      && (s.currentNum.None? ==> v.currentNumText == "")
      && (s.currentNum.Some? ==> v.currentNumText == s.currentNum.value)
  {
  }

  /** The notice appears only with source shown and the module not verified; it is the
      difference message when one is set and the generic disclaimer otherwise. */
  lemma NoticeChoice(s: State, source: Option<string>)
    ensures var n := Render(s, source).notice;
      && (n != NoNotice <==> Truthy(source) && !s.verified)
      && (n.DifferenceNotice? <==> Truthy(source) && !s.verified && s.verifyDifferenceMsg != "")
      && (n.DifferenceNotice? ==> n.text == s.verifyDifferenceMsg)
      && (n == Disclaimer <==> Truthy(source) && !s.verified && s.verifyDifferenceMsg == "")
  {
  }

  /** Source and controls go together: with source the copy/expand controls and the highlighted
      code are shown; without it, the unavailable message and no controls. */
  lemma BodyMatchesSource(s: State, source: Option<string>)
    ensures var v := Render(s, source);
      && (v.copyAndExpand <==> Truthy(source))
      && (v.body == Unavailable <==> !Truthy(source))
      && (v.body.Highlighted? ==> v.body.source == source.value)
  {
  }

  /** The starting line is 0 without source or without a selected function, else the
      locator's; the code box is scrolled to 24 pixels per line, and only when it exists. */
  lemma StartingLineAndScroll(source: Option<string>, functionName: Option<string>,
                              locate: (string, string) -> int)
    ensures var line := StartingLineNumber(source, functionName, locate);
      && (!Truthy(source) || !Truthy(functionName) ==> line == 0)
      && (Truthy(source) && Truthy(functionName) ==> line == locate(source.value, functionName.value))
      && (ScrollTop(source, line).Some? <==> Truthy(source))
      && (Truthy(source) ==> ScrollTop(source, line) == Some(24 * line))
  {
  }

  /** The "no code" bytecode yields no source: the unavailable message is rendered, the
      copy/expand controls and the notice are not, and the starting line is 0. */
  lemma NoCodeScenario(s: State, transform: string -> string, functionName: Option<string>,
                       locate: (string, string) -> int)
    ensures var source := SourceCode("0x", transform);
      var v := Render(s, source);
      && source.None?
      && v.body == Unavailable && !v.copyAndExpand && v.notice == NoNotice
      && StartingLineNumber(source, functionName, locate) == 0
      && ScrollTop(source, 0).None?
  {
  }

  /** Over any events, the difference warning is displayed exactly when source is shown, the
      last verdict is negative and the last fulfilled status check reported VERIFIED_DIFFERENT. */
  lemma WarningShownIffLastStatusDifferent(events: seq<Event>, source: Option<string>)
    ensures Render(Run(events), source).notice == DifferenceNotice(DifferenceWarning)
        <==> Truthy(source) && !LastVerdict(events)
             && LastCheck(events).Some? && LastCheck(events).value.status == VerifiedDifferent
  {
    PanelProperties.RunTracksLastCheck(events);
    PanelProperties.RunTracksLastVerdict(events);
  }
}
