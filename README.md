# Code panel verification state, in Dafny

A model of the verification panel of the `Code` component of the Aptos explorer's account
page (`src/pages/Account/Components/CodeSnippet.tsx`). The panel shows a module's source.
It asks a verification service whether that source matches the on-chain bytecode. It warns
when the service reports the code as different. A Verify button lets the user ask for a
fresh verification.

The model has these parts:

- `JsValues` (js_values.dfy): the JavaScript semantics the component relies on. These are
  `undefined` (`Option`), string truthiness, template-literal interpolation (`undefined` is
  spelt out), settled promises (`Settled`), and the decimal rendering of the millisecond
  timestamp.
- `QueryStrings` (query_strings.dfy): the two query strings the panel builds. It also has an
  independent reading of a query string into `key=value` fields. It proves that a receiver
  reads back exactly the fields the panel wrote.
- `Backend` (backend.dfy): requests to the verification service and the URL the fetch hook
  builds from them. It records the argument misalignment listed under Findings.
- `Packages` (packages.dfy): the package list and the first-match lookup of the package that
  holds the selected module. That package gives the "Current" upgrade number.
- `PanelState` (panel_state.dfy): the six state hooks as a value, and one pure transition per
  event. The events are the status effect, a settled status check, a press of Verify, and a
  settled verify request. `Run` folds a trace of events from the state on mount.
- `PanelProperties` (panel_properties.dfy): properties of single transitions and of whole
  traces.
- `CodeView` (code_view.dfy): what is rendered from the state and the transformed source.
  This covers the badge, the button and its caption, the number texts, the notice under the
  header, the copy/expand controls, the code body, and the scroll offset.
- `CodeSnippet` (code_panel.dfy): the component as an object. The six hooks are the fields
  of class `CodePanel`. Each effect, handler and promise continuation is a method proved
  against its transition in `PanelState`.
- `PanelScenarios` (panel_scenarios.dfy): concrete runs. They cover a verified module, a
  module whose code differs, a verification that succeeds, and one that fails.

The bytecode transformer (`transformCode`) and the function-line locator
(`getPublicFunctionLineNumber`) live in a utilities module that is not part of this model.
They are parameters of the functions that use them. Clock readings are parameters too.
Backend answers enter as `Settled` values, either fulfilled with a response or rejected.

## Model

| member | source | states |
|---|---|---|
| CodeSnippet.CodePanel.constructor | src/pages/Account/Components/CodeSnippet.tsx:169-174 | the six hooks start as not verified, both numbers "", no message, difference flag raised, not in progress; the button is disabled |
| CodeSnippet.CodePanel.StatusEffect | src/pages/Account/Components/CodeSnippet.tsx:205-213 | the effect sets the current number from the package lookup, changes nothing else, and issues the status-check request for chain, account and module |
| CodeSnippet.CodePanel.ApplyVerifyCheck | src/pages/Account/Components/CodeSnippet.tsx:213-229 | a fulfilled status check sets the warning and flag exactly when the status is VERIFIED_DIFFERENT and copies the verdict and verified number; a rejected one (there is no catch) changes nothing |
| CodeSnippet.CodePanel.VerifyClick | src/pages/Account/Components/CodeSnippet.tsx:236-240 | starting a verification sets only the in-progress mark and issues the verify request with the timestamp |
| CodeSnippet.CodePanel.PressVerify | src/pages/Account/Components/CodeSnippet.tsx:301-306 | a press of the disabled button changes nothing and sends nothing; a press of the enabled one runs VerifyClick |
| CodeSnippet.CodePanel.SettleVerifyRequest | src/pages/Account/Components/CodeSnippet.tsx:241-253 | settling clears the in-progress mark; success also copies the verdict, failure changes nothing else; numbers, message and flag are untouched |
| PanelProperties.InitialDisablesVerify | src/pages/Account/Components/CodeSnippet.tsx:169-174 | on mount the button is disabled, and the flag is raised with an empty message, so flag and message do not yet agree |
| PanelProperties.ApplyCheckReconciles | src/pages/Account/Components/CodeSnippet.tsx:217-227 | after a status check, the flag is raised iff the status is VERIFIED_DIFFERENT, the message is the fixed warning iff so and "" otherwise, verified and the verified number come from the response whatever the status, and the current number and in-progress mark are kept |
| PanelProperties.ApplyCheckIdempotent | src/pages/Account/Components/CodeSnippet.tsx:217-227 | applying the same status twice gives the same state, and the result depends on the prior state only through the current number and in-progress mark |
| PanelProperties.StatusEffectIdempotent | src/pages/Account/Components/CodeSnippet.tsx:210 | re-running the effect with the same inputs changes nothing; it sets only the current number, from the packages and module alone |
| PanelProperties.StepPreservesReconciled | src/pages/Account/Components/CodeSnippet.tsx:205-253 | once flag and message agree, every event keeps them agreeing |
| PanelProperties.VerifyTouchesOnlyVerdictAndProgress | src/pages/Account/Components/CodeSnippet.tsx:236-253 | starting a verification raises only the in-progress mark; settling clears it and, on success only, sets the verdict; neither number, the message nor the flag changes |
| PanelProperties.PressRespectsDisabled | src/pages/Account/Components/CodeSnippet.tsx:303-306 | a press of the disabled button is a no-op; a press of the enabled one starts a verification and disables the button |
| PanelProperties.RunTracksLastCheck | src/pages/Account/Components/CodeSnippet.tsx:213-229 | after any events, flag, message and verified number are those set by the last fulfilled status check, or the initial ones before the first |
| PanelProperties.RunTracksLastRender | src/pages/Account/Components/CodeSnippet.tsx:185-189 | after any events, the current number is the lookup of the last render; no status or verify response changes it |
| PanelProperties.RunTracksLastVerdict | src/pages/Account/Components/CodeSnippet.tsx:226 | after any events, verified is the verdict of the last fulfilled status check or verify request, else false |
| PanelProperties.InProgressOnlyWhilePressPending | src/pages/Account/Components/CodeSnippet.tsx:237-252 | a verification is in progress only while the last press has not been followed by a settled verify request |
| PanelProperties.ReconciledAfterFirstCheck | src/pages/Account/Components/CodeSnippet.tsx:217-225 | after the first fulfilled status check, flag and message agree in every later state |
| PanelProperties.EnabledOnlyAfterCleanCheck | src/pages/Account/Components/CodeSnippet.tsx:303 | the button is enabled only after a status check has been applied, the last one applied was not VERIFIED_DIFFERENT, and the last verdict was negative |
| PanelProperties.DifferenceDoesNotForceUnverified | src/pages/Account/Components/CodeSnippet.tsx:217-226 | a response with isVerified true and status VERIFIED_DIFFERENT gives a verified state with the warning set |
| PanelProperties.VerifiedIsNotFinal | src/pages/Account/Components/CodeSnippet.tsx:226 | a verified panel is re-enabled by a later status check that reports it unverified and not different |
| Packages.FirstHolder | src/pages/Account/Components/CodeSnippet.tsx:185-189 | the index found is the first package holding the module; none is found only when no package holds it |
| Packages.CurrentUpgradeNumberIsFirstMatch | src/pages/Account/Components/CodeSnippet.tsx:185-189 | the current number is the upgrade number of the first package holding the module; it is undefined exactly when the list is undefined or no package holds the module |
| CodeView.ButtonMatchesState | src/pages/Account/Components/CodeSnippet.tsx:274-314 | the button is disabled iff in progress, verified or flagged different; the caption is a spinner iff in progress, else "Verified" iff verified, else "Verify"; the badge shows iff verified |
| CodeView.NumberTexts | src/pages/Account/Components/CodeSnippet.tsx:343-349 | the verified number shows "Not yet" when undefined or empty, else the number; an undefined current number shows nothing |
| CodeView.NoticeChoice | src/pages/Account/Components/CodeSnippet.tsx:395-418 | the notice appears iff source is shown and not verified; it is the difference message iff one is set, else the disclaimer |
| CodeView.BodyMatchesSource | src/pages/Account/Components/CodeSnippet.tsx:355-393 | copy/expand controls and the highlighted code appear iff there is source; otherwise the unavailable message appears |
| CodeView.StartingLineAndScroll | src/pages/Account/Components/CodeSnippet.tsx:71-78 | the starting line is 0 without source or without a selected function, else the locator's line; the code box scrolls to 24 px per line, and only when it exists |
| CodeView.NoCodeScenario | src/pages/Account/Components/CodeSnippet.tsx:163 | bytecode "0x" gives no source, the unavailable message, no controls, no notice and starting line 0 |
| CodeView.WarningShownIffLastStatusDifferent | src/pages/Account/Components/CodeSnippet.tsx:395-404 | after any events, the warning is displayed iff source is shown, the last verdict is negative, and the last fulfilled status check reported VERIFIED_DIFFERENT |
| QueryStrings.CheckQueryParses | src/pages/Account/Components/CodeSnippet.tsx:212 | the status-check query reads back as exactly the fields chainId, account and moduleName with their values, when no value holds an `&` |
| QueryStrings.VerifyQueryParses | src/pages/Account/Components/CodeSnippet.tsx:238-239 | the verify query is the status-check query followed by a timestamp field holding the timestamp's digits, and reads back so |
| QueryStrings.SplitJoin | src/pages/Account/Components/CodeSnippet.tsx:212 | splitting a joined query at `&` gives back its fields when none contains `&` |
| JsValues.DecimalRoundTrip | src/pages/Account/Components/CodeSnippet.tsx:238 | the timestamp's decimal string reads back as the timestamp, so distinct clock readings give distinct queries |
| Backend.AsWrittenCheckMisrouted | src/pages/Account/Components/CodeSnippet.tsx:213 | as written, the status check fetches the path `chainId=…` with query `undefined`, never the verify-check endpoint |
| Backend.AsWrittenVerifyMisrouted | src/pages/Account/Components/CodeSnippet.tsx:240 | as written, the verify action fetches the path `chainId=…&timestamp=…` with query `load`, never the verify endpoint |
| Backend.RequestUrlRoutes | src/api/hooks/useWdsBackend.ts:7-9 | a request passed to the hook as (path, query) yields a URL whose path is the endpoint under the base and whose query is the request's query |
| PanelScenarios.VerifiedModule | src/pages/Account/Components/CodeSnippet.tsx:210-227 | a verified status for upgrade 3, with the packages giving 3, leaves verified with both numbers 3 and no warning |
| PanelScenarios.DifferentModule | src/pages/Account/Components/CodeSnippet.tsx:217-227 | a VERIFIED_DIFFERENT status for upgrade 2 leaves not verified, number 2, the warning shown and the button disabled |
| PanelScenarios.SuccessfulVerification | src/pages/Account/Components/CodeSnippet.tsx:236-249 | a press after a clean check puts the verification in progress; success makes it verified with the caption "Verified" and the button disabled |
| PanelScenarios.FailedVerification | src/pages/Account/Components/CodeSnippet.tsx:250-253 | a failed verification returns to idle, still not verified, with the button enabled |

## Left out

- The network I/O. The fetch hook (src/api/hooks/useWdsBackend.ts) throws on a non-ok
  response. In the model the caller passes that in as a rejected `Settled` value. Only the
  URL the hook builds is modelled.
- The policies query (src/api/hooks/useGetPolicies.ts) is not part of this model: its only
  use in the component is commented out.
- `transformCode` and `getPublicFunctionLineNumber` are function parameters with no stated
  properties. `getBytecodeSizeInKB` is imported but not used by the panel.
- Concurrency and lifecycle. The status effect runs after every render and its requests may
  settle in any order. Each settling is one atomic event, and a trace may order them in any
  way. The model does not pair requests with responses and does not model unmount.
- Presentation: the clipboard write, the 2000 ms tooltip timer, the expand modal and its own
  scroll effect (the same 24 px formula), the syntax highlighter, theme colours, `logEvent`
  and `console.log`.
- Malformed responses. `isVerified` is always a boolean. A missing `internal_upgrade_number`
  is `undefined`, and that case is modelled. The upgrade policy type is defined in a file that
  is not part of this model, so it is kept as an unread string.
- CheckQueryParses, VerifyQueryParses: the component does not percent-encode its values, so
  these lemmas hold only for values without `&`.
- The design intent that `verified` is never true while a difference is flagged. The code does
  not enforce it, and the model follows the code (DifferenceDoesNotForceUnverified).
- The design intent that the button stays disabled for good once verified. A later status
  check can clear `verified`, and the model follows the code (VerifiedIsNotFinal).
- The design intent that status-check failures are caught. The code has no catch for them,
  so a rejected status check changes nothing in the model.

## Findings

| source | as written | input that shows it | evidently intended | confidence | as-written member | corrected member |
|---|---|---|---|---|---|---|
| src/pages/Account/Components/CodeSnippet.tsx:213 | `wdsBack("verification/aptos/verify-check", query)` against the hook's `(method, path, query, options)`: the endpoint binds to `method`, the query to `path` | chain `testnet`, account `0x1`, module `coin`: the fetch goes to `…/compiler/chainId=testnet&account=0x1&moduleName=coin?undefined` | `…/compiler/verification/aptos/verify-check?chainId=testnet&account=0x1&moduleName=coin` | high; not executed | Backend.AsWrittenCheckMisrouted | Backend.RequestUrlRoutes |
| src/pages/Account/Components/CodeSnippet.tsx:240 | `wdsBack("verification/aptos", query, "load")`: the query binds to `path` and `"load"` to `query` | the same inputs, timestamp 1: `…/compiler/chainId=testnet&account=0x1&moduleName=coin&timestamp=1?load` | `…/compiler/verification/aptos?chainId=…&timestamp=1` | high; not executed | Backend.AsWrittenVerifyMisrouted | Backend.RequestUrlRoutes |
