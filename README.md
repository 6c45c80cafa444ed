# Genesys Predictive Engagement for Salesforce: a Dafny model

This project models the three Lightning Web Components that make up the
core of the Genesys Predictive Engagement (GPE) connector for Salesforce:

- `genesysGPE` is the runtime component on a web-messaging page.
  - It asks the visitor for an e-mail address and an E.164 phone number.
  - It fetches a named GPE configuration and compiles it into a Genesys
    Journey SDK script, then runs that script.
  - It resolves the configuration's record id and hands the contact values
    and that id to the messaging widget as hidden pre-chat fields.
- `genesysGPEConfig` is the administrator's editor for GPE configurations.
  - It covers the create/edit view machine and the text and section
    inputs, including the per-item custom attributes.
  - It derives each event name as a prefix plus a suffix.
  - It checks the mandatory fields and builds the record that is saved.
- `genesysCustomerJourney` is the session timeline beside a messaging
  session.
  - It shows each event's icon and short type and its detail rows.
  - It builds the per-name donut chart and the top-five page-view bars.
  - It reports the number of distinct pages and the session length.

Modules:

- `Common`: `Option`, `Result`, toasts, first-occurrence search, `splice`.
- `ConfigModel`: the saved configuration record, its six tracker sections,
  and the event-name derivation rule (`click_`, `idle_`, `viewport_`,
  `scroll_` followed by the suffix).
- `Validators`: the e-mail and phone checks. Each regular expression is
  modelled as a scan, and a lemma proves the scan equal to a declarative
  reading of the expression.
- `ScriptCompiler`: `generateGPEScript`.
  - The tracking code is modelled as a list of `Journey.*` commands, one
    per enabled section in the fixed section order.
  - The calls the script makes on the `Genesys` queue are a function of
    whether the SDK bundle loaded and whether `Journey.ready` fired.
  - The open-action handler is modelled as well.
- `Orchestrator`: class `GenesysGPE`, with the component's fields.
  - Every Apex result, `eval` outcome and window event arrives as a method
    call whose parameters carry the outcome.
  - Each method states the component's whole new state.
- `ConfigEditor`: class `GPEConfigEditor`, with the editor's fields.
  - Pure functions say what `resetForm`, `cleanUpConfigurations`, the
    recompute passes and the saved payload are.
  - Lemmas relate them (idempotence, load-then-save round trip).
- `CustomerJourney`: the timeline's pure functions.
  - The counting loop (`Tally`) behind both charts is proved against a
    multiset specification.
  - The stable descending sort and `slice(0, 5)` are proved sorted,
    one-per-page and dominating the pages left out.
  - Class `CustomerJourneyView` holds the `@track` fields that `wiredEvents`
    rewrites.

Behaviour of the code that the model keeps:

- The phone check accepts a `+` followed by 2 to 15 digits, the first one
  non-zero (`genesysGPE.js:364-366`). ITU-T Recommendation E.164 allows up
  to 15 digits, so a one-digit number is refused.
- The open-action handler compares with the record's `gcOpenActionName`
  (`genesysGPE.js:109`). The editor writes only `openActionName`
  (`genesysGPEConfig.js:602-604`), so a record saved by the editor always
  compares with the text `undefined`.
- The open-action subscription is made twice: at the top level of the
  script and again in the `Journey.ready` callback (`genesysGPE.js:86-90`,
  `genesysGPE.js:132`). So once the plug-in is ready, a matching action
  launches the chat twice.
- Submitting invalid values raises an error toast
  (`genesysGPE.js:268-282`).
- The traits fragment ignores the section's own custom attributes and uses
  only the visitor's e-mail and phone (`genesysGPE.js:139-158`).
- The ready listener only records readiness. The hidden pre-chat fields are
  set only when the configuration id arrives after the widget is ready
  (`genesysGPE.js:44-56`, `genesysGPE.js:337-342`).
- The editor has no `removeClickEvent` handler, so click items cannot be
  removed (`genesysGPEConfig.js:327-371`).
- `resetForm` sets the forms selector to `''` where the initial state has
  `'form'`. It also keeps the environment-input lock
  (`genesysGPEConfig.js:179-220`).
- `loadExistingConfig` does not restore the open-action name
  (`genesysGPEConfig.js:142-166`).
- The forms section has no custom-attribute list unless a loaded record
  brought one, so adding a forms attribute to a new configuration throws
  (`genesysGPEConfig.js:24-31`, `genesysGPEConfig.js:309-312`).
- Two things in `wiredEvents`:
  - An event without a type makes `replace` throw before anything is
    stored.
  - A wire error empties the events but leaves both charts as they were
    (`genesysCustomerJourney.js:13-29`).
- `uniquePages` counts a missing and an empty page title as two pages,
  while the page-view tally files both under one `Unknown Page` bar
  (`genesysCustomerJourney.js:111`, `genesysCustomerJourney.js:219-222`).

## Model

| member | source | states |
|---|---|---|
| Common.IndexOf | force-app/main/default/lwc/genesysCustomerJourney/genesysCustomerJourney.js:168-194 | the first position where the pattern occurs, or none exactly when the pattern does not occur (what `includes` and `replace` search for) |
| Common.RemoveAt | force-app/main/default/lwc/genesysGPEConfig/genesysGPEConfig.js:293-297 | `splice(index, 1)`: the element at `index` is dropped and the others keep their order; an index past the end changes nothing |
| Common.RemoveAtMultiset | force-app/main/default/lwc/genesysGPEConfig/genesysGPEConfig.js:398-402 | removing an item takes exactly that one item out of the list's contents |
| Validators.ValidateEmailMatchesPattern | force-app/main/default/lwc/genesysGPE/genesysGPE.js:360-362 | the split-at-`@` scan accepts exactly what `/^[^\s@]+@[^\s@]+\.[^\s@]+$/` accepts: one `@` that is not first, a later `.` that is neither right after it nor last, no white space |
| Validators.ValidEmailParts | force-app/main/default/lwc/genesysGPE/genesysGPE.js:360-362 | an accepted address has a non-empty local part, exactly one `@` and a domain with an inner dot |
| Validators.ValidateEmail | force-app/main/default/lwc/genesysGPE/genesysGPE.js:360-362 | the e-mail check; `ValidateEmailMatchesPattern` proves it accepts exactly the addresses the regular expression matches |
| Validators.EmailExamples | force-app/main/default/lwc/genesysGPE/genesysGPE.js:360-362 | `a@b.com` is accepted and `a@b` is refused |
| Validators.ValidatePhoneIsE164 | force-app/main/default/lwc/genesysGPE/genesysGPE.js:364-366 | a phone number is accepted exactly when it is `+` followed by 2 to 15 digits, the first one non-zero |
| Validators.PhoneExamples | force-app/main/default/lwc/genesysGPE/genesysGPE.js:323-328 | the hint's number `+34666111222` passes; a `00` prefix and a single digit do not |
| Validators.ValidatePhone | force-app/main/default/lwc/genesysGPE/genesysGPE.js:364-366 | the phone check; `ValidatePhoneIsE164` proves it accepts exactly `+` and 2 to 15 digits with a non-zero first digit |
| Validators.SubmitEnabledIffBothValid | force-app/main/default/lwc/genesysGPE/genesysGPE.js:310-314 | submission is enabled exactly when both values pass their checks (the emptiness tests are implied) |
| Validators.IsSubmitDisabled | force-app/main/default/lwc/genesysGPE/genesysGPE.js:310-314 | the `isSubmitDisabled` getter; `SubmitEnabledIffBothValid` proves it false exactly when both checks pass |
| ScriptCompiler.GenerateCustomAttributesAndTraits | force-app/main/default/lwc/genesysGPE/genesysGPE.js:139-158 | the fixed five-entry traits mapper always; contact attributes exactly when e-mail or phone is set, each one present exactly when its value is |
| ScriptCompiler.TraitsIgnoreSectionAttributes | force-app/main/default/lwc/genesysGPE/genesysGPE.js:139-158 | the fragment does not depend on the section's own custom attributes |
| ScriptCompiler.PartShape | force-app/main/default/lwc/genesysGPE/genesysGPE.js:160-263 | each section contributes one command when enabled and none otherwise, and that command follows the section's field rules |
| ScriptCompiler.GenerateJourneyTrackingCodeOrder | force-app/main/default/lwc/genesysGPE/genesysGPE.js:136-266 | commands come in strictly increasing section order (pageview, forms, click, idle, in-viewport, scroll depth), and a section has a command exactly when it is enabled |
| ScriptCompiler.GenerateJourneyTrackingCode | force-app/main/default/lwc/genesysGPE/genesysGPE.js:136-266 | the six sections' parts in the fixed order; `GenerateJourneyTrackingCodeOrder` and `GenerateJourneyTrackingCodeFaithful` prove one command per enabled section, in order, carrying that section's fields |
| ScriptCompiler.PrefixStep | force-app/main/default/lwc/genesysGPE/genesysGPE.js:136-266 | appending one section's part keeps the prefix ordered and records exactly the enabled sections so far |
| ScriptCompiler.GenerateJourneyTrackingCodeFaithful | force-app/main/default/lwc/genesysGPE/genesysGPE.js:160-263 | every command carries its section's fields: page title and location unless capture-all; forms selector and name only when set and not capture-all; every item's key and event name in order |
| ScriptCompiler.AppendPart | force-app/main/default/lwc/genesysGPE/genesysGPE.js:136-266 | adding a part of at most one command above all earlier ranks keeps the list ordered and adds exactly that rank |
| ScriptCompiler.AllDisabledEmitsNothing | force-app/main/default/lwc/genesysGPE/genesysGPE.js:160-265 | with every section disabled the tracking code is empty |
| ScriptCompiler.DerivedNamesReachCommands | force-app/main/default/lwc/genesysGPE/genesysGPE.js:193-263 | an item of an enabled section reaches the script with its key and its derived `prefix_suffix` name |
| ScriptCompiler.PageviewBodyMissesComma | force-app/main/default/lwc/genesysGPE/genesysGPE.js:162-169 | as written: with capture-all off and both selectors empty, `pageLocation` stands directly before the traits fragment with no comma between |
| ScriptCompiler.PageviewBody | force-app/main/default/lwc/genesysGPE/genesysGPE.js:162-169 | the intended body: members always separated by commas, ending with the traits mapper |
| ScriptCompiler.PageviewBodyAgrees | force-app/main/default/lwc/genesysGPE/genesysGPE.js:162-169 | the as-written and intended bodies coincide whenever a selector is set or everything is captured |
| ScriptCompiler.GenerateGPEScript | force-app/main/default/lwc/genesysGPE/genesysGPE.js:70-134 | the SDK URL under the configured domain, the environment and deployment id, the tracking commands, and the open-action target: the record's `gcOpenActionName` when set, the text `undefined` otherwise |
| ScriptCompiler.OpenActionTarget | force-app/main/default/lwc/genesysGPE/genesysGPE.js:109 | the text the handler compares with: the record's `gcOpenActionName`, or `undefined` without one; `GenerateGPEScript` puts it in the script and `SavedPayloadSpec` proves it `undefined` for every record the editor saves |
| ScriptCompiler.IssueAll | force-app/main/default/lwc/genesysGPE/genesysGPE.js:101-103 | the tracking function issues each command once, in order |
| ScriptCompiler.IssuedCommandsAppend | force-app/main/default/lwc/genesysGPE/genesysGPE.js:84-132 | the commands issued by two call runs in a row are the commands of the first followed by those of the second |
| ScriptCompiler.OpenActionSubscriptionsAppend | force-app/main/default/lwc/genesysGPE/genesysGPE.js:105-132 | open-action subscriptions add up across two call runs in a row |
| ScriptCompiler.IssueAllFacts | force-app/main/default/lwc/genesysGPE/genesysGPE.js:101-103 | the tracking function issues exactly its commands and subscribes to nothing |
| ScriptCompiler.SdkCallsSpec | force-app/main/default/lwc/genesysGPE/genesysGPE.js:84-132 | commands are issued, all of them and in order, only after the bundle loaded and `Journey.ready` fired; the open-action handler is installed once at start and once more on readiness |
| ScriptCompiler.SdkCalls | force-app/main/default/lwc/genesysGPE/genesysGPE.js:84-132 | the calls the script makes on the `Genesys` queue; `SdkCallsSpec` proves commands come only after load and readiness, and the handler is installed at start and again on readiness |
| ScriptCompiler.DisabledScriptStillSubscribes | force-app/main/default/lwc/genesysGPE/genesysGPE.js:101-132 | with every section disabled no command is issued but the open-action handler is still installed |
| ScriptCompiler.LaunchesAppend | force-app/main/default/lwc/genesysGPE/genesysGPE.js:105-130 | chat launches add up across two handler runs |
| ScriptCompiler.DispatchLaunches | force-app/main/default/lwc/genesysGPE/genesysGPE.js:105-130 | one open-action event launches the chat once per installed handler when the action name matches and the widget API exists, and never otherwise |
| ScriptCompiler.HandleOpenAction | force-app/main/default/lwc/genesysGPE/genesysGPE.js:105-130 | one installed handler's reaction: show the button and launch the chat when the name matches and `utilAPI` exists; `DispatchLaunches` counts its launches |
| ScriptCompiler.DispatchOpenAction | force-app/main/default/lwc/genesysGPE/genesysGPE.js:105-130 | one event delivered to every installed handler in order; `DispatchLaunches` proves one launch per handler exactly when the name matches and the API exists, and `MatchingActionLaunchesTwiceWhenReady` gives two after readiness |
| ScriptCompiler.MatchingActionLaunchesTwiceWhenReady | force-app/main/default/lwc/genesysGPE/genesysGPE.js:86-132 | once the plug-in is ready, a matching open action launches the chat twice |
| Orchestrator.ErrorMessage | force-app/main/default/lwc/genesysGPE/genesysGPE.js:422-426 | the server's message, else the error's own message, else `Unknown error`; never empty |
| Orchestrator.ErrorToast | force-app/main/default/lwc/genesysGPE/genesysGPE.js:422-426 | an `Error` toast of variant `error` whose message is the context, `: `, then the cause's message (`ErrorMessage`) |
| Orchestrator.SubmitLoadsIffValid | force-app/main/default/lwc/genesysGPE/genesysGPE.js:268-282 | submission hides the form exactly when both values pass their checks, and requests the configuration exactly when, besides, a name is set |
| Orchestrator.Submitted | force-app/main/default/lwc/genesysGPE/genesysGPE.js:268-282 | the state after `handleSubmit`; `SubmitLoadsIffValid`, `SubmitLoadsIffValidAt` and `SubmitFrame` prove the form hides exactly on valid values, the configuration is requested exactly when a name is also set, and nothing else changes but one toast |
| Orchestrator.SubmitLoadsIffValidAt | force-app/main/default/lwc/genesysGPE/genesysGPE.js:268-282 | the same, for any validity verdict that implies both values are present |
| Orchestrator.SubmitFrame | force-app/main/default/lwc/genesysGPE/genesysGPE.js:268-282 | one toast per submission (the missing-value error when a value is empty); contact values, configuration, id, scripts and widget calls unchanged |
| Orchestrator.GenesysGPE.constructor | force-app/main/default/lwc/genesysGPE/genesysGPE.js:8-17 | the initial field values: form shown, nothing loaded, not ready |
| Orchestrator.GenesysGPE.ConnectedCallback | force-app/main/default/lwc/genesysGPE/genesysGPE.js:19-21 | only the ready listener is added |
| Orchestrator.GenesysGPE.EmbeddedMessagingReadyFired | force-app/main/default/lwc/genesysGPE/genesysGPE.js:337-342 | readiness is recorded when the listener exists; no hidden fields are set |
| Orchestrator.GenesysGPE.HandleEmailChange | force-app/main/default/lwc/genesysGPE/genesysGPE.js:316-321 | the value is stored, with a warning toast exactly when it is malformed |
| Orchestrator.GenesysGPE.HandlePhoneChange | force-app/main/default/lwc/genesysGPE/genesysGPE.js:323-328 | the value is stored, with a warning toast exactly when it is not E.164 |
| Orchestrator.GenesysGPE.HandleSubmit | force-app/main/default/lwc/genesysGPE/genesysGPE.js:268-282 | the new state is the submission function of the old one under both checks |
| Orchestrator.GenesysGPE.LoadGPEConfig | force-app/main/default/lwc/genesysGPE/genesysGPE.js:23-31 | without a name nothing changes; otherwise a progress message and one request for that name |
| Orchestrator.GenesysGPE.OnConfigDetails | force-app/main/default/lwc/genesysGPE/genesysGPE.js:31-42 | a failure raises one error toast; a record is kept, its id requested, the compiled script run, and the component loaded exactly when `eval` does not throw |
| Orchestrator.GenesysGPE.GetConfigId | force-app/main/default/lwc/genesysGPE/genesysGPE.js:44-45 | one id request for the configured name |
| Orchestrator.GenesysGPE.InitializeGPE | force-app/main/default/lwc/genesysGPE/genesysGPE.js:58-68 | the script compiled from the record and the contact values is run; loaded on success, error toast otherwise |
| Orchestrator.GenesysGPE.OnConfigId | force-app/main/default/lwc/genesysGPE/genesysGPE.js:46-56 | the id is stored; the hidden fields are set exactly when the widget was already ready, a configuration is loaded and the pre-chat API exists |
| Orchestrator.GenesysGPE.SetupPrechatFields | force-app/main/default/lwc/genesysGPE/genesysGPE.js:344-358 | e-mail, phone and id are handed over exactly when ready, loaded and the API exists |
| Orchestrator.GenesysGPE.HandleError | force-app/main/default/lwc/genesysGPE/genesysGPE.js:422-426 | exactly one error toast carrying the cause's message |
| Orchestrator.GenesysGPE.SubmitDisabled | force-app/main/default/lwc/genesysGPE/genesysGPE.js:310-314 | the button is enabled exactly when both values pass their checks |
| Orchestrator.ReadyBeforeIdInjectsOnce | force-app/main/default/lwc/genesysGPE/genesysGPE.js:44-56 | widget ready before the id arrives: the hidden fields are set once, with the visitor's values and the id |
| Orchestrator.IdBeforeReadyNeverInjects | force-app/main/default/lwc/genesysGPE/genesysGPE.js:337-342 | id before readiness: the hidden fields are never set |
| Orchestrator.SubmitWithoutNameFetchesNothing | force-app/main/default/lwc/genesysGPE/genesysGPE.js:23-28 | without a configuration name a valid submission hides the form but requests and loads nothing |
| ConfigEditor.EnvironmentKnownIffListed | force-app/main/default/lwc/genesysGPEConfig/genesysGPEConfig.js:232-251 | the environment is non-empty exactly for a listed domain, and then it is the table's `prod-` value |
| ConfigEditor.GetGCEnvironmentFromDomain | force-app/main/default/lwc/genesysGPEConfig/genesysGPEConfig.js:232-251 | the domain table lookup with `''` as default; `EnvironmentKnownIffListed` proves it non-empty exactly for the 15 listed domains |
| ConfigEditor.EnvironmentExamples | force-app/main/default/lwc/genesysGPEConfig/genesysGPEConfig.js:232-251 | rows of the table, a domain that extends another one, and a trailing-slash miss |
| ConfigEditor.WithSection | force-app/main/default/lwc/genesysGPEConfig/genesysGPEConfig.js:327-333 | the named section is replaced and every other section is unchanged |
| ConfigEditor.SuffixEditKeepsNamesDerived | force-app/main/default/lwc/genesysGPEConfig/genesysGPEConfig.js:340-350 | a suffix edit writes that item's suffix and derived name together, touches no other item, and keeps derived names derived |
| ConfigEditor.EditPastEndIsNoOp | force-app/main/default/lwc/genesysGPEConfig/genesysGPEConfig.js:386-396 | an edit of a missing item changes nothing (the source throws before writing) |
| ConfigEditor.AddedItemBreaksDerivedNames | force-app/main/default/lwc/genesysGPEConfig/genesysGPEConfig.js:335-338 | a freshly added item does not carry its derived name, which is why saving recomputes it |
| ConfigEditor.RecomputedDerived | force-app/main/default/lwc/genesysGPEConfig/genesysGPEConfig.js:573-584 | after the pass every name is derived; nothing but names changes; already-derived lists are untouched; the pass is idempotent |
| ConfigEditor.Recomputed | force-app/main/default/lwc/genesysGPEConfig/genesysGPEConfig.js:573-584 | one section's name rewrite; `RecomputedDerived` proves every name derived afterwards, nothing else changed, and the pass idempotent |
| ConfigEditor.CleanUpSpec | force-app/main/default/lwc/genesysGPEConfig/genesysGPEConfig.js:637-647 | only the four capture-all-dependent fields change, emptied exactly under their section's capture-all; idempotent |
| ConfigEditor.CleanedUp | force-app/main/default/lwc/genesysGPEConfig/genesysGPEConfig.js:637-647 | `cleanUpConfigurations` on values; `CleanUpSpec` proves only the four capture-all fields change, each under its flag, and the pass idempotent |
| ConfigEditor.EmptyLabels | force-app/main/default/lwc/genesysGPEConfig/genesysGPEConfig.js:529-539 | at most one label per field |
| ConfigEditor.EmptyLabelsAppend | force-app/main/default/lwc/genesysGPEConfig/genesysGPEConfig.js:529-539 | the missing labels of two field lists are those of the first followed by those of the second |
| ConfigEditor.EmptyLabelsSpec | force-app/main/default/lwc/genesysGPEConfig/genesysGPEConfig.js:529-539 | nothing is listed exactly when no field is empty, and a label is listed exactly when its field is empty |
| ConfigEditor.MandatoryOkIffFilled | force-app/main/default/lwc/genesysGPEConfig/genesysGPEConfig.js:529-547 | validation passes exactly when all required fields are filled; the open-action name is reported only outside edit mode |
| ConfigEditor.MandatoryFields | force-app/main/default/lwc/genesysGPEConfig/genesysGPEConfig.js:529-539 | the required fields with their labels, Open Action Name only outside edit mode; `MandatoryOkIffFilled` proves validation passes exactly when they are all filled |
| ConfigEditor.SavedPayloadSpec | force-app/main/default/lwc/genesysGPEConfig/genesysGPEConfig.js:563-612 | the saved record keeps every list section's flag and each item's key, suffix and custom attributes, names each item by prefix and suffix and changes nothing else about it; the pageview and forms sections in their cleaned-up form; all seven identity fields as typed; open-action name only when creating and set; id only when editing; the runtime target is `undefined` |
| ConfigEditor.SavedSections | force-app/main/default/lwc/genesysGPEConfig/genesysGPEConfig.js:571-600 | each list section is sent with its flag and items as held, every item renamed by the recompute pass |
| ConfigEditor.Payload | force-app/main/default/lwc/genesysGPEConfig/genesysGPEConfig.js:586-612 | the record a save sends; `SavedPayloadSpec` proves its sections, derived names, identity fields, conditional open-action name and id |
| ConfigEditor.LoadThenSaveRoundTrip | force-app/main/default/lwc/genesysGPEConfig/genesysGPEConfig.js:142-166 | loading a clean record and saving it in edit mode sends back the same record without an open-action name, under the selected id |
| ConfigEditor.ReturnToStartRestoresStart | force-app/main/default/lwc/genesysGPEConfig/genesysGPEConfig.js:168-220 | leaving lands on the start view flags and a blank form (forms selector `''`), whatever was held; toasts and calls are kept |
| ConfigEditor.Reset | force-app/main/default/lwc/genesysGPEConfig/genesysGPEConfig.js:179-220 | `resetForm` on values; `ResetForm` and `ReturnToStartRestoresStart` prove every form value blank with the view and toasts kept |
| ConfigEditor.GPEConfigEditor.constructor | force-app/main/default/lwc/genesysGPEConfig/genesysGPEConfig.js:12-61 | the initial field values, the forms selector `'form'` among them |
| ConfigEditor.GPEConfigEditor.SetIdentity | force-app/main/default/lwc/genesysGPEConfig/genesysGPEConfig.js:146-152 | the text fields take the given values |
| ConfigEditor.GPEConfigEditor.SetTracking | force-app/main/default/lwc/genesysGPEConfig/genesysGPEConfig.js:153-158 | the six sections take the given values |
| ConfigEditor.GPEConfigEditor.SetView | force-app/main/default/lwc/genesysGPEConfig/genesysGPEConfig.js:168-174 | the view flags take the given values |
| ConfigEditor.GPEConfigEditor.SetItems | force-app/main/default/lwc/genesysGPEConfig/genesysGPEConfig.js:335-338 | one section's items are replaced and nothing else changes |
| ConfigEditor.GPEConfigEditor.HandleConfigActionChange | force-app/main/default/lwc/genesysGPEConfig/genesysGPEConfig.js:120-134 | `create` opens a blank form, `edit` opens the saved-configuration list, anything else only records the choice; the start view is left in all cases |
| ConfigEditor.GPEConfigEditor.HandleExistingConfigChange | force-app/main/default/lwc/genesysGPEConfig/genesysGPEConfig.js:136-143 | the chosen id is remembered and its record requested |
| ConfigEditor.GPEConfigEditor.OnExistingConfigLoaded | force-app/main/default/lwc/genesysGPEConfig/genesysGPEConfig.js:143-166 | a record fills the form (all but the open-action name) and shows it; a failure raises one error toast |
| ConfigEditor.GPEConfigEditor.LoadRecord | force-app/main/default/lwc/genesysGPEConfig/genesysGPEConfig.js:145-159 | the state becomes the loaded-record state |
| ConfigEditor.GPEConfigEditor.ReturnToStart | force-app/main/default/lwc/genesysGPEConfig/genesysGPEConfig.js:168-177 | the start view with a blank form |
| ConfigEditor.GPEConfigEditor.ResetForm | force-app/main/default/lwc/genesysGPEConfig/genesysGPEConfig.js:179-220 | every form value blank; view and environment lock kept |
| ConfigEditor.GPEConfigEditor.HandleInputChange | force-app/main/default/lwc/genesysGPEConfig/genesysGPEConfig.js:222-230 | exactly one text field takes the value (also `handleGCEnvironmentChange` at 261-264 and `handleOpenActionNameChange` at 659-662) |
| ConfigEditor.GPEConfigEditor.HandleGCDomainChange | force-app/main/default/lwc/genesysGPEConfig/genesysGPEConfig.js:253-259 | the environment follows the domain, and the environment input is locked exactly when the domain is listed |
| ConfigEditor.GPEConfigEditor.HandlePageviewChange | force-app/main/default/lwc/genesysGPEConfig/genesysGPEConfig.js:266-279 | one pageview member changes; turning capture-all on also drops title, location and attributes |
| ConfigEditor.GPEConfigEditor.AddPageviewCustomAttribute | force-app/main/default/lwc/genesysGPEConfig/genesysGPEConfig.js:281-284 | one blank attribute appended |
| ConfigEditor.GPEConfigEditor.HandlePageviewCustomAttributeChange | force-app/main/default/lwc/genesysGPEConfig/genesysGPEConfig.js:286-291 | one member of one attribute changes; a missing attribute changes nothing |
| ConfigEditor.GPEConfigEditor.RemovePageviewCustomAttribute | force-app/main/default/lwc/genesysGPEConfig/genesysGPEConfig.js:293-297 | that attribute is spliced out |
| ConfigEditor.GPEConfigEditor.HandleFormsTrackChange | force-app/main/default/lwc/genesysGPEConfig/genesysGPEConfig.js:299-307 | one forms member changes, with no clean-up |
| ConfigEditor.GPEConfigEditor.AddFormsCustomAttribute | force-app/main/default/lwc/genesysGPEConfig/genesysGPEConfig.js:309-312 | without an attribute list nothing changes (the push throws); otherwise one blank attribute appended |
| ConfigEditor.GPEConfigEditor.HandleFormsCustomAttributeChange | force-app/main/default/lwc/genesysGPEConfig/genesysGPEConfig.js:314-319 | as above, one attribute member changes |
| ConfigEditor.GPEConfigEditor.RemoveFormsCustomAttribute | force-app/main/default/lwc/genesysGPEConfig/genesysGPEConfig.js:321-325 | as above, the attribute is spliced out |
| ConfigEditor.GPEConfigEditor.HandleSectionChange | force-app/main/default/lwc/genesysGPEConfig/genesysGPEConfig.js:327-333 | only the `enabled` input has an effect, on that section alone (also 373-379, 425-431, 477-483) |
| ConfigEditor.GPEConfigEditor.AddTrackedItem | force-app/main/default/lwc/genesysGPEConfig/genesysGPEConfig.js:381-384 | the section's default item is appended (also 335-338, 433-436, 485-488) |
| ConfigEditor.GPEConfigEditor.HandleTrackedItemChange | force-app/main/default/lwc/genesysGPEConfig/genesysGPEConfig.js:386-396 | the item edit function is applied to the section (also 340-350, 438-448, 490-500) |
| ConfigEditor.GPEConfigEditor.RemoveTrackedItem | force-app/main/default/lwc/genesysGPEConfig/genesysGPEConfig.js:398-402 | the item is spliced out of an idle, viewport or scroll section (also 450-454, 502-506) |
| ConfigEditor.GPEConfigEditor.AddItemAttribute | force-app/main/default/lwc/genesysGPEConfig/genesysGPEConfig.js:352-356 | one blank attribute on that item; a missing item changes nothing |
| ConfigEditor.GPEConfigEditor.HandleItemAttributeChange | force-app/main/default/lwc/genesysGPEConfig/genesysGPEConfig.js:358-364 | one member of one attribute of one item; missing indices change nothing |
| ConfigEditor.GPEConfigEditor.RemoveItemAttribute | force-app/main/default/lwc/genesysGPEConfig/genesysGPEConfig.js:366-371 | the attribute is spliced out of that item; a missing item changes nothing |
| ConfigEditor.GPEConfigEditor.MissingMandatoryFields | force-app/main/default/lwc/genesysGPEConfig/genesysGPEConfig.js:530-538 | the labels of the empty required fields in the fixed order, empty exactly when all are filled |
| ConfigEditor.GPEConfigEditor.ValidateMandatoryFields | force-app/main/default/lwc/genesysGPEConfig/genesysGPEConfig.js:529-547 | true exactly when validation passes, changing nothing; otherwise one toast naming the missing fields |
| ConfigEditor.GPEConfigEditor.CleanUpConfigurations | force-app/main/default/lwc/genesysGPEConfig/genesysGPEConfig.js:637-647 | the sections become their cleaned-up form |
| ConfigEditor.GPEConfigEditor.RecomputeEventNames | force-app/main/default/lwc/genesysGPEConfig/genesysGPEConfig.js:573-584 | one section's names are rewritten in place to their derived form, and afterwards all are derived |
| ConfigEditor.GPEConfigEditor.SaveConfiguration | force-app/main/default/lwc/genesysGPEConfig/genesysGPEConfig.js:563-612 | a failed validation only raises its toast; otherwise clean-up, recompute and one save call |
| ConfigEditor.GPEConfigEditor.OnSaveResult | force-app/main/default/lwc/genesysGPEConfig/genesysGPEConfig.js:613-631 | success toasts and returns to start; failure toasts the error's message (`undefined` when it has none) |
| CustomerJourney.OrElse | force-app/main/default/lwc/genesysCustomerJourney/genesysCustomerJourney.js:111 | JavaScript's or-default on a string: the value when it is a non-empty string, the default otherwise; with a non-empty default (`N/A`, `Unknown Page`) the result is never empty |
| CustomerJourney.GetShortEventType | force-app/main/default/lwc/genesysCustomerJourney/genesysCustomerJourney.js:75-77 | unchanged without the journey prefix; otherwise its first occurrence, and only that, is removed |
| CustomerJourney.ShortEventTypeStripsPrefix | force-app/main/default/lwc/genesysCustomerJourney/genesysCustomerJourney.js:75-77 | a type starting with the prefix loses exactly that prefix |
| CustomerJourney.IconsOfJourneyTypes | force-app/main/default/lwc/genesysCustomerJourney/genesysCustomerJourney.js:31-42 | the three journey types get the visit, action and segment icons; the generic icon exactly for every other type or none |
| CustomerJourney.GetIconName | force-app/main/default/lwc/genesysCustomerJourney/genesysCustomerJourney.js:31-42 | the icon of an event type; `IconsOfJourneyTypes` proves the three journey types' icons and `standard:event` exactly otherwise |
| CustomerJourney.GetColor | force-app/main/default/lwc/genesysCustomerJourney/genesysCustomerJourney.js:130-133 | always a palette colour |
| CustomerJourney.ColorCycle | force-app/main/default/lwc/genesysCustomerJourney/genesysCustomerJourney.js:130-133 | colours repeat with period five, and any five consecutive positions get five different colours |
| CustomerJourney.LowerAscii | force-app/main/default/lwc/genesysCustomerJourney/genesysCustomerJourney.js:168 | lower-casing keeps the length |
| CustomerJourney.KeywordHits | force-app/main/default/lwc/genesysCustomerJourney/genesysCustomerJourney.js:180-192 | the six `includes` tests are the keyword list's tests, in order |
| CustomerJourney.ClassifyFirstKeyword | force-app/main/default/lwc/genesysCustomerJourney/genesysCustomerJourney.js:180-193 | a keyword decides the category exactly when the name contains it and none of the keywords tried before |
| CustomerJourney.ClassifyFallback | force-app/main/default/lwc/genesysCustomerJourney/genesysCustomerJourney.js:194-199 | the segment rule applies exactly when no keyword matches and the type is the segment type; otherwise the event is not shown |
| CustomerJourney.Classify | force-app/main/default/lwc/genesysCustomerJourney/genesysCustomerJourney.js:168-198 | the category `getEventDetails` picks; `ClassifyFirstKeyword` and `ClassifyFallback` prove the first keyword present decides, then the segment rule, else the event is dropped |
| CustomerJourney.CategoryRows | force-app/main/default/lwc/genesysCustomerJourney/genesysCustomerJourney.js:180-195 | one or two rows per category |
| CustomerJourney.GetEventDetails | force-app/main/default/lwc/genesysCustomerJourney/genesysCustomerJourney.js:162-213 | details exist exactly for a present event some rule matches; they start with the event-name row and hold at least two rows |
| CustomerJourney.LabelsConcat | force-app/main/default/lwc/genesysCustomerJourney/genesysCustomerJourney.js:162-213 | labels of concatenated rows are the concatenated labels |
| CustomerJourney.CategoryRowLabels | force-app/main/default/lwc/genesysCustomerJourney/genesysCustomerJourney.js:180-195 | each category's row labels |
| CustomerJourney.CommonRowLabels | force-app/main/default/lwc/genesysCustomerJourney/genesysCustomerJourney.js:202-210 | Browser, Device and Location rows, each exactly when its leading field is set |
| CustomerJourney.CommonRows | force-app/main/default/lwc/genesysCustomerJourney/genesysCustomerJourney.js:201-210 | the Browser, Device and Location rows; `CommonRowLabels` proves each is present exactly when its leading field is truthy |
| CustomerJourney.EventDetailsLabels | force-app/main/default/lwc/genesysCustomerJourney/genesysCustomerJourney.js:162-213 | a shown event's labels: event name, the category's labels, then the common labels |
| CustomerJourney.FormattedEvents | force-app/main/default/lwc/genesysCustomerJourney/genesysCustomerJourney.js:153-160 | every entry is an input event paired with its details |
| CustomerJourney.FormattedEventsStep | force-app/main/default/lwc/genesysCustomerJourney/genesysCustomerJourney.js:153-160 | the first event is kept, in front of the filtered rest, exactly when a rule matches it |
| CustomerJourney.FormattedEventsKeepsShown | force-app/main/default/lwc/genesysCustomerJourney/genesysCustomerJourney.js:153-160 | every event a rule matches survives the filter; the list is empty exactly when no event matches |
| CustomerJourney.Dedup | force-app/main/default/lwc/genesysCustomerJourney/genesysCustomerJourney.js:87 | the distinct keys in first-seen order, the order a JavaScript object lists new string keys |
| CustomerJourney.SumCountsAppend | force-app/main/default/lwc/genesysCustomerJourney/genesysCustomerJourney.js:80-83 | a listed key's count adds to the sum |
| CustomerJourney.SumCountsUpdate | force-app/main/default/lwc/genesysCustomerJourney/genesysCustomerJourney.js:80-83 | updating one key's count changes the sum by the difference, or not at all for an unlisted key |
| CustomerJourney.DedupSnoc | force-app/main/default/lwc/genesysCustomerJourney/genesysCustomerJourney.js:80-83 | a new key joins the order at the end; a seen key leaves it unchanged |
| CustomerJourney.TallyFirstSeen | force-app/main/default/lwc/genesysCustomerJourney/genesysCustomerJourney.js:82 | counting a new key with 1 keeps the tally invariant |
| CustomerJourney.TallySeenAgain | force-app/main/default/lwc/genesysCustomerJourney/genesysCustomerJourney.js:82 | incrementing a seen key keeps the tally invariant |
| CustomerJourney.Tally | force-app/main/default/lwc/genesysCustomerJourney/genesysCustomerJourney.js:80-83 | the keys in first-seen order, each counted by its number of occurrences (at least one), no other keys, counts adding up to the number of keys |
| CustomerJourney.ChartKeys | force-app/main/default/lwc/genesysCustomerJourney/genesysCustomerJourney.js:82 | one key per event |
| CustomerJourney.TotalCountIsSum | force-app/main/default/lwc/genesysCustomerJourney/genesysCustomerJourney.js:84-104 | the chart's total is the tally's sum |
| CustomerJourney.TallyChartIsSpec | force-app/main/default/lwc/genesysCustomerJourney/genesysCustomerJourney.js:87-104 | the slices built from a tally of the keys are the specified slices: distinct keys in first-seen order, each with its number of occurrences and its positional colour |
| CustomerJourney.ChartSpecShape | force-app/main/default/lwc/genesysCustomerJourney/genesysCustomerJourney.js:79-105 | one slice per distinct event name, each counting at least one event, and every event's name has a slice |
| CustomerJourney.ChartData | force-app/main/default/lwc/genesysCustomerJourney/genesysCustomerJourney.js:79-105 | the chart is the specified chart of the events' keys, and its counts add up to the number of events |
| CustomerJourney.PageViews | force-app/main/default/lwc/genesysCustomerJourney/genesysCustomerJourney.js:109-110 | exactly the `page_viewed` events |
| CustomerJourney.Insert | force-app/main/default/lwc/genesysCustomerJourney/genesysCustomerJourney.js:116-117 | insertion adds exactly the one entry |
| CustomerJourney.SortByCountDesc | force-app/main/default/lwc/genesysCustomerJourney/genesysCustomerJourney.js:116-117 | the sort is a permutation |
| CustomerJourney.InsertSorted | force-app/main/default/lwc/genesysCustomerJourney/genesysCustomerJourney.js:116-117 | insertion keeps the list sorted by count, largest first |
| CustomerJourney.InsertDistinct | force-app/main/default/lwc/genesysCustomerJourney/genesysCustomerJourney.js:116-117 | insertion of a new page keeps one entry per page |
| CustomerJourney.SortByCountDescSpec | force-app/main/default/lwc/genesysCustomerJourney/genesysCustomerJourney.js:116-117 | the result is sorted by count, largest first, and keeps one entry per page |
| CustomerJourney.TopFiveSpec | force-app/main/default/lwc/genesysCustomerJourney/genesysCustomerJourney.js:116-118 | at most five entries, sorted, one per page, all from the tally, and every entry left out counts no more than any kept |
| CustomerJourney.PageCountsOf | force-app/main/default/lwc/genesysCustomerJourney/genesysCustomerJourney.js:108-116 | one entry per distinct page in first-seen order with its real count |
| CustomerJourney.PageViewBars | force-app/main/default/lwc/genesysCustomerJourney/genesysCustomerJourney.js:107-128 | at most five bars, one per page, largest first, each count the page's real number of views and positive |
| CustomerJourney.PageViewDominance | force-app/main/default/lwc/genesysCustomerJourney/genesysCustomerJourney.js:116-118 | a viewed page left out has no more views than any page shown |
| CustomerJourney.PageViewData | force-app/main/default/lwc/genesysCustomerJourney/genesysCustomerJourney.js:107-128 | the bars are the specification's bars for the events' page keys; at most five |
| CustomerJourney.ImageNoLarger | force-app/main/default/lwc/genesysCustomerJourney/genesysCustomerJourney.js:111 | merging titles under a default never makes more pages |
| CustomerJourney.PageTallyAtMostUniquePages | force-app/main/default/lwc/genesysCustomerJourney/genesysCustomerJourney.js:219-222 | the tally has no more pages than `uniquePages`, which is zero exactly when there are no page views |
| CustomerJourney.UniquePages | force-app/main/default/lwc/genesysCustomerJourney/genesysCustomerJourney.js:219-222 | the number of distinct page titles among page views; `PageTallyAtMostUniquePages` bounds the tally by it and `UnknownTitlesCountedTwice` shows `undefined` and `''` counted apart |
| CustomerJourney.UnknownTitlesCountedTwice | force-app/main/default/lwc/genesysCustomerJourney/genesysCustomerJourney.js:219-222 | a missing and an empty title are two unique pages but two views of one `Unknown Page` |
| CustomerJourney.TruncRem | force-app/main/default/lwc/genesysCustomerJourney/genesysCustomerJourney.js:230 | JavaScript's `%`: the remainder takes the sign of the dividend, is smaller than the divisor in size, and differs from the dividend by a multiple of the divisor |
| CustomerJourney.SessionDuration | force-app/main/default/lwc/genesysCustomerJourney/genesysCustomerJourney.js:224-232 | `N/A` exactly when there are fewer than two events |
| CustomerJourney.SessionDurationSplit | force-app/main/default/lwc/genesysCustomerJourney/genesysCustomerJourney.js:229-231 | for a non-negative length: whole minutes and 0 to 59 whole seconds, exact to the second |
| CustomerJourney.NegativeDurationExample | force-app/main/default/lwc/genesysCustomerJourney/genesysCustomerJourney.js:229-231 | −1.5 s shows as −1 min −2 s |
| CustomerJourney.Decorate | force-app/main/default/lwc/genesysCustomerJourney/genesysCustomerJourney.js:16-21 | one timeline entry per record |
| CustomerJourney.CustomerJourneyView.constructor | force-app/main/default/lwc/genesysCustomerJourney/genesysCustomerJourney.js:7-11 | empty events, charts and bars; no error; details hidden |
| CustomerJourney.CustomerJourneyView.WiredEvents | force-app/main/default/lwc/genesysCustomerJourney/genesysCustomerJourney.js:13-29 | typed data replaces the events and rebuilds both charts from it; an untyped record or nothing changes nothing; an error empties the events and keeps stale charts |
| CustomerJourney.RecordsOfDecorate | force-app/main/default/lwc/genesysCustomerJourney/genesysCustomerJourney.js:16-21 | decorating keeps every record as it was (`...event`) |
| CustomerJourney.CustomerJourneyView.LoadData | force-app/main/default/lwc/genesysCustomerJourney/genesysCustomerJourney.js:15-24 | typed data replaces the events, clears the error and rebuilds chart and bars from it; the details toggle is kept |
| CustomerJourney.CustomerJourneyView.ProcessChartData | force-app/main/default/lwc/genesysCustomerJourney/genesysCustomerJourney.js:79-105 | the chart is the specification's chart of the held events, and its total is their number |
| CustomerJourney.CustomerJourneyView.ProcessPageViewData | force-app/main/default/lwc/genesysCustomerJourney/genesysCustomerJourney.js:107-128 | the bars are the specification's bars of the held events |
| CustomerJourney.CustomerJourneyView.HandleTimelineToggle | force-app/main/default/lwc/genesysCustomerJourney/genesysCustomerJourney.js:44-46 | the details flag takes the toggle's value |
| CustomerJourney.CustomerJourneyView.Summary | force-app/main/default/lwc/genesysCustomerJourney/genesysCustomerJourney.js:215-232 | the total is the number of events, and the duration is `N/A` exactly with fewer than two |

## Left out

- Running the generated script: `eval`, the SDK bundle's loading and the
  `Genesys` queue are modelled by what the script asks for, not by its text.
  The model has no JSON text and no `stringifyConfig` quoting.
- Apex calls, `@wire` adapters and promises: each call's outcome is a
  method parameter. The option-list wires of the editor (domains,
  environments, saved configurations) only fill pick-lists and are not
  modelled.
- Toasts, console logging and the `configsaved` event: toasts are
  recorded as values; the logging and the event dispatch are not modelled.
- `deleteConfiguration`: it depends on the browser's `confirm` dialog and
  only issues a delete call and a toast.
- The runtime's `showChatButton`, `hideChatButton` and `launchChat` methods:
  nothing in the component calls them. The script's own launch path is
  modelled in `ScriptCompiler.HandleOpenAction`.
- `handleEventClick`: it only navigates to a record page.
- The validation-icon getters of the runtime and `saveButtonLabel`: these
  are presentation text derived from the modelled checks.
- Clocks: `Date.now()` attribute ids, `performance.now()` timings,
  `formatDate`, and the parsing of `Created_Date__c`. The session length is
  given as the millisecond difference, so an unparsable date (`NaN`) is not
  modelled.
- Floating point: the chart's percentages, arc angles, SVG paths and the
  bars' percentage of the maximum are not modelled; counts and colours are.
- `parseInt` of the idle seconds and percentage inputs: a key edit carries
  the already-parsed number, and `NaN` is not modelled.
- CustomerJourney.LowerAscii: lower-cases ASCII letters only, while
  `toLowerCase` folds all of Unicode.
- CustomerJourney.Tally: it treats every key as an ordinary string key. In
  the source, a JavaScript object lists integer-like keys (such as `"42"`)
  before the others. Keys such as `constructor` also collide with
  `Object.prototype`, so `counts[key] || 0` starts from a function.
- ConfigEditor.GetGCEnvironmentFromDomain: a domain that names a built-in
  object member (`constructor`, `toString`, `__proto__`) makes the source's
  `domainMapping[domain] || ''` return that member, so the environment
  input is locked with a non-string value; the model returns `''` and
  leaves the input unlocked. The domain comes from a pick-list of real
  domains, so this input does not arise in use.
- CustomerJourney.SortByCountDesc: stability (equal counts keep their
  first-seen order) holds by construction of the insertion but is not
  stated as a lemma.
- GetShortEventType on concrete journey type strings (for example
  `…WebEvent` to `WebEvent`): this is covered by the general
  `ShortEventTypeStripsPrefix` rather than by literal examples.
- Orchestrator.GenesysGPE.OnConfigDetails: a record that parses but lacks a
  section makes the compiler throw; the model's record always has all six
  sections.
- Item keys of the wrong kind (a selector on an idle item, say) are not
  rejected, since the source does not check them either.
- ConfigEditor.GPEConfigEditor.HandleTrackedItemChange: an edit of a field
  other than the suffix and the key, through `data-field`, is not modelled.
- ConfigEditor.GPEConfigEditor.HandlePageviewChange: the same holds for
  text edits of the pageview section; title and location are modelled, any
  other field is not.

## Findings

| source | as written | input that shows it | evidently intended | confidence | as-written member | corrected member |
|---|---|---|---|---|---|---|
| force-app/main/default/lwc/genesysGPE/genesysGPE.js:162-169 | the comma before the traits fragment is emitted only when the page title or location is a non-empty string | pageview enabled, capture-all off, page title `''` and location `''` (the editor's reset values): the body reads `pageTitle: '', pageLocation: '' traitsMapper: …`, which does not parse, so `eval` throws and no tracking runs | a comma whenever page fields precede the traits fragment | not executed | ScriptCompiler.PageviewBodyMissesComma | ScriptCompiler.PageviewBody |
