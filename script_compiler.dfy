/** The script compiler of the runtime component (`genesysGPE.js`): the trait
    fragment every command carries, the ordered list of Journey SDK commands
    one configuration yields, and the bootstrap script around them. The
    generated JavaScript text is represented by values: a command list and a
    `Script` record, plus the sequence of SDK calls that script makes. */
module ScriptCompiler {
  import opened Common
  import opened ConfigModel

  // ---------------------------------------------------------------------
  // Trait fragment (`generateCustomAttributesAndTraits`)
  // ---------------------------------------------------------------------

  /** One entry of the `customAttributes` object sent with a command. */
  datatype ContactAttribute = ContactAttribute(name: string, value: string)

  /** One `{ fieldName, traitName }` row of `traitsMapper`. */
  datatype TraitMapping = TraitMapping(fieldName: string, traitName: string)

  /** The fixed table binding the SDK's traits to the two contact fields. */
  const TraitsMapper: seq<TraitMapping> := [
    TraitMapping("CustomerEmail", "email"),
    TraitMapping("CustomerPhone", "workPhone"),
    TraitMapping("CustomerPhone", "cellPhone"),
    TraitMapping("CustomerPhone", "otherPhone"),
    TraitMapping("CustomerPhone", "homePhone")
  ]

  /** `customAttributes: {...}` (only when some contact value is set) followed
      by `traitsMapper: [...]`. */
  datatype TraitFragment = TraitFragment(customAttributes: Option<seq<ContactAttribute>>, traitsMapper: seq<TraitMapping>)

  /** The visitor's e-mail and phone, as attributes; the empty string stands
      for a value the visitor did not give. */
  function ContactAttributes(email: string, phone: string): seq<ContactAttribute>
  {
    (if email != "" then [ContactAttribute("CustomerEmail", email)] else [])
    + (if phone != "" then [ContactAttribute("CustomerPhone", phone)] else [])
  }

  /** `generateCustomAttributesAndTraits(customAttributes)`. The argument (the
      section's own attribute rows) is accepted and not used. */
  function GenerateCustomAttributesAndTraits(email: string, phone: string, sectionAttributes: seq<CustomAttribute>): (r: TraitFragment)
    ensures r.traitsMapper == TraitsMapper && |r.traitsMapper| == 5
    ensures r.customAttributes.Some? <==> email != "" || phone != ""
    ensures r.customAttributes.Some? ==>
      (forall a :: a in r.customAttributes.value ==>
        (a.name == "CustomerEmail" && a.value == email && email != "")
        || (a.name == "CustomerPhone" && a.value == phone && phone != ""))
    ensures r.customAttributes.Some? ==>
      (email != "" ==> ContactAttribute("CustomerEmail", email) in r.customAttributes.value)
      && (phone != "" ==> ContactAttribute("CustomerPhone", phone) in r.customAttributes.value)
  {
    var attributes := if email != "" || phone != "" then Some(ContactAttributes(email, phone)) else None;
    TraitFragment(attributes, TraitsMapper)
  }

  /** Every section and every tracked item gets the same fragment, whatever
      its own attribute rows are. */
  lemma TraitsIgnoreSectionAttributes(email: string, phone: string, a: seq<CustomAttribute>, b: seq<CustomAttribute>)
    ensures GenerateCustomAttributesAndTraits(email, phone, a) == GenerateCustomAttributesAndTraits(email, phone, b)
  {
  }

  // ---------------------------------------------------------------------
  // Commands (`generateJourneyTrackingCode`)
  // ---------------------------------------------------------------------

  /** One element of a list command: the item's key, its event name and the
      trait fragment. */
  datatype Entry = Entry(key: ItemKey, eventName: string, traits: TraitFragment)

  /** One `Genesys("command", ...)` call. An absent selector field is `None`. */
  datatype Command =
    | PageviewCommand(pageTitle: Option<string>, pageLocation: Option<string>, traits: TraitFragment)
    | FormsTrackCommand(captureFormDataOnAbandon: bool, captureFormDataOnSubmit: bool,
                        selector: Option<string>, formName: Option<string>, traits: TraitFragment)
    | TrackEvents(kind: SectionKind, entries: seq<Entry>)

  /** The SDK command name each command is issued under. */
  function CommandName(c: Command): string
  {
    match c
    case PageviewCommand(_, _, _) => "Journey.pageview"
    case FormsTrackCommand(_, _, _, _, _) => "Journey.formsTrack"
    case TrackEvents(kind, _) =>
      match kind
      case Click => "Journey.trackClickEvents"
      case Idle => "Journey.trackIdleEvents"
      case Viewport => "Journey.trackInViewport"
      case Scroll => "Journey.trackScrollDepth"
  }

  /** The position of a command's section among the six: pageview, forms,
      click, idle, in-viewport, scroll depth. */
  function Rank(c: Command): nat
  {
    match c
    case PageviewCommand(_, _, _) => 0
    case FormsTrackCommand(_, _, _, _, _) => 1
    case TrackEvents(kind, _) =>
      match kind
      case Click => 2
      case Idle => 3
      case Viewport => 4
      case Scroll => 5
  }

  /** Whether the section at position `s` is enabled. */
  predicate SectionEnabled(cfg: GPEConfig, s: nat)
  {
    if s == 0 then cfg.pageviewConfig.enabled
    else if s == 1 then cfg.formsTrackConfig.enabled
    else if s == 2 then cfg.clickEventsConfig.enabled
    else if s == 3 then cfg.idleEventsConfig.enabled
    else if s == 4 then cfg.inViewportConfig.enabled
    else if s == 5 then cfg.scrollDepthConfig.enabled
    else false
  }

  /** The entries of a list section: one per tracked item, in order (`.map`). */
  function Entries(items: seq<TrackedItem>, email: string, phone: string): seq<Entry>
  {
    seq(|items|, i requires 0 <= i < |items| =>
      Entry(items[i].key, items[i].eventName, GenerateCustomAttributesAndTraits(email, phone, items[i].customAttributes)))
  }

  function PageviewPart(pv: PageviewConfig, email: string, phone: string): seq<Command>
  {
    if !pv.enabled then []
    else
      var traits := GenerateCustomAttributesAndTraits(email, phone, pv.customAttributes);
      if pv.captureAll then [PageviewCommand(None, None, traits)]
      else [PageviewCommand(Some(pv.pageTitle), Some(pv.pageLocation), traits)]
  }

  function FormsPart(f: FormsTrackConfig, email: string, phone: string): seq<Command>
  {
    if !f.enabled then []
    else
      var selector := if !f.captureAll && f.selector != "" then Some(f.selector) else None;
      var formName := if !f.captureAll && f.formName != "" then Some(f.formName) else None;
      var traits := GenerateCustomAttributesAndTraits(email, phone, OrEmptyAttributes(f.customAttributes));
      [FormsTrackCommand(f.captureFormDataOnAbandon, f.captureFormDataOnSubmit, selector, formName, traits)]
  }

  function OrEmptyAttributes(a: Option<seq<CustomAttribute>>): seq<CustomAttribute>
  {
    if a.Some? then a.value else []
  }

  function ListPart(cfg: GPEConfig, kind: SectionKind, email: string, phone: string): seq<Command>
  {
    var section := SectionOf(cfg, kind);
    if section.enabled then [TrackEvents(kind, Entries(section.items, email, phone))] else []
  }

  /** `generateJourneyTrackingCode`: the commands of the enabled sections,
      in the source's fixed section order. */
  function GenerateJourneyTrackingCode(cfg: GPEConfig, email: string, phone: string): seq<Command>
  {
    PageviewPart(cfg.pageviewConfig, email, phone)
    + FormsPart(cfg.formsTrackConfig, email, phone)
    + ListPart(cfg, Click, email, phone)
    + ListPart(cfg, Idle, email, phone)
    + ListPart(cfg, Viewport, email, phone)
    + ListPart(cfg, Scroll, email, phone)
  }

  /** Declarative description of a command the configuration may produce:
      the field-level rules for each section. */
  ghost predicate CommandFaithful(cfg: GPEConfig, email: string, phone: string, c: Command)
  {
    var traits := GenerateCustomAttributesAndTraits(email, phone, []);
    match c
    case PageviewCommand(title, location, t) =>
      t == traits
      && (cfg.pageviewConfig.captureAll ==> title.None? && location.None?)
      && (!cfg.pageviewConfig.captureAll ==>
            title == Some(cfg.pageviewConfig.pageTitle) && location == Some(cfg.pageviewConfig.pageLocation))
    case FormsTrackCommand(abandon, submit, selector, formName, t) =>
      var f := cfg.formsTrackConfig;
      t == traits
      && abandon == f.captureFormDataOnAbandon && submit == f.captureFormDataOnSubmit
      && (selector.Some? <==> !f.captureAll && f.selector != "")
      && (selector.Some? ==> selector.value == f.selector)
      && (formName.Some? <==> !f.captureAll && f.formName != "")
      && (formName.Some? ==> formName.value == f.formName)
    case TrackEvents(kind, entries) =>
      var items := SectionOf(cfg, kind).items;
      |entries| == |items|
      && forall i :: 0 <= i < |items| ==>
           entries[i].key == items[i].key && entries[i].eventName == items[i].eventName
           && entries[i].traits == traits
  }

  /** The part of the output that section `k` contributes. */
  function Part(cfg: GPEConfig, email: string, phone: string, k: nat): seq<Command>
    requires k < 6
  {
    if k == 0 then PageviewPart(cfg.pageviewConfig, email, phone)
    else if k == 1 then FormsPart(cfg.formsTrackConfig, email, phone)
    else if k == 2 then ListPart(cfg, Click, email, phone)
    else if k == 3 then ListPart(cfg, Idle, email, phone)
    else if k == 4 then ListPart(cfg, Viewport, email, phone)
    else ListPart(cfg, Scroll, email, phone)
  }

  /** Each section contributes one command when enabled and none otherwise,
      and that command follows the section's field rules. */
  lemma PartShape(cfg: GPEConfig, email: string, phone: string, k: nat)
    requires k < 6
    ensures |Part(cfg, email, phone, k)| <= 1
    ensures |Part(cfg, email, phone, k)| == 1 <==> SectionEnabled(cfg, k)
    ensures forall c :: c in Part(cfg, email, phone, k) ==> Rank(c) == k && CommandFaithful(cfg, email, phone, c)
  {
  }

  /** The compiler's ordering contract: commands appear in strictly increasing
      section order (so at most one per section, in the fixed order
      pageview, forms, click, idle, in-viewport, scroll depth), and a section
      has a command exactly when it is enabled. */
  lemma GenerateJourneyTrackingCodeOrder(cfg: GPEConfig, email: string, phone: string)
    ensures var r := GenerateJourneyTrackingCode(cfg, email, phone);
      (forall i, j :: 0 <= i < j < |r| ==> Rank(r[i]) < Rank(r[j]))
      && (forall s :: 0 <= s < 6 ==> (SectionEnabled(cfg, s) <==> HasRank(r, s)))
  {
    var r := GenerateJourneyTrackingCode(cfg, email, phone);
    var a1 := Part(cfg, email, phone, 0);
    PartShape(cfg, email, phone, 0);
    AppendPart([], a1, 0);
    assert [] + a1 == a1;
    assert PrefixOk(cfg, a1, 1);
    var a2 := a1 + Part(cfg, email, phone, 1);
    PrefixStep(cfg, email, phone, a1, 1);
    var a3 := a2 + Part(cfg, email, phone, 2);
    PrefixStep(cfg, email, phone, a2, 2);
    var a4 := a3 + Part(cfg, email, phone, 3);
    PrefixStep(cfg, email, phone, a3, 3);
    var a5 := a4 + Part(cfg, email, phone, 4);
    PrefixStep(cfg, email, phone, a4, 4);
    PrefixStep(cfg, email, phone, a5, 5);
    assert r == a5 + Part(cfg, email, phone, 5);
  }

  /** The commands of the first `k` sections are ordered by rank and hold
      rank `s < k` exactly when section `s` is enabled. */
  ghost predicate PrefixOk(cfg: GPEConfig, r: seq<Command>, k: nat)
  {
    (forall i, j :: 0 <= i < j < |r| ==> Rank(r[i]) < Rank(r[j]))
    && (forall i :: 0 <= i < |r| ==> Rank(r[i]) < k)
    && (forall s :: 0 <= s < k ==> (SectionEnabled(cfg, s) <==> HasRank(r, s)))
  }

  lemma PrefixStep(cfg: GPEConfig, email: string, phone: string, acc: seq<Command>, k: nat)
    requires k < 6 && PrefixOk(cfg, acc, k)
    ensures PrefixOk(cfg, acc + Part(cfg, email, phone, k), k + 1)
  {
    PartShape(cfg, email, phone, k);
    AppendPart(acc, Part(cfg, email, phone, k), k);
  }

  /** The compiler's content contract: every emitted command obeys its
      section's field rules. */
  lemma GenerateJourneyTrackingCodeFaithful(cfg: GPEConfig, email: string, phone: string)
    ensures var r := GenerateJourneyTrackingCode(cfg, email, phone);
      forall i :: 0 <= i < |r| ==> CommandFaithful(cfg, email, phone, r[i])
  {
    var r := GenerateJourneyTrackingCode(cfg, email, phone);
    forall i | 0 <= i < |r| ensures CommandFaithful(cfg, email, phone, r[i]) {
      assert r == Part(cfg, email, phone, 0) + Part(cfg, email, phone, 1) + Part(cfg, email, phone, 2)
        + Part(cfg, email, phone, 3) + Part(cfg, email, phone, 4) + Part(cfg, email, phone, 5);
      var k :| 0 <= k < 6 && r[i] in Part(cfg, email, phone, k);
      PartShape(cfg, email, phone, k);
    }
  }

  /** Whether some command of `r` belongs to the section at position `s`. */
  ghost predicate HasRank(r: seq<Command>, s: nat)
  {
    exists i :: 0 <= i < |r| && Rank(r[i]) == s
  }

  /** Appending a part that holds at most one command, of a rank above all
      ranks so far, keeps the list ordered and adds exactly that rank. */
  lemma AppendPart(acc: seq<Command>, part: seq<Command>, k: nat)
    requires forall i, j :: 0 <= i < j < |acc| ==> Rank(acc[i]) < Rank(acc[j])
    requires forall i :: 0 <= i < |acc| ==> Rank(acc[i]) < k
    requires |part| <= 1 && forall c :: c in part ==> Rank(c) == k
    ensures forall i, j :: 0 <= i < j < |acc + part| ==> Rank((acc + part)[i]) < Rank((acc + part)[j])
    ensures forall i :: 0 <= i < |acc + part| ==> Rank((acc + part)[i]) < k + 1
    ensures forall s :: 0 <= s < k ==> (HasRank(acc + part, s) <==> HasRank(acc, s))
    ensures HasRank(acc + part, k) <==> |part| == 1
  {
    var r := acc + part;
    if |part| == 1 {
      assert part[0] in part;
      assert Rank(r[|acc|]) == k;
    }
    forall j | |acc| <= j < |r| ensures Rank(r[j]) == k {
      assert r[j] in part;
    }
    forall s | 0 <= s < k && HasRank(r, s) ensures HasRank(acc, s) {
      var i :| 0 <= i < |r| && Rank(r[i]) == s;
      assert r[i] == acc[i];
    }
    forall s | 0 <= s < k && HasRank(acc, s) ensures HasRank(r, s) {
      var i :| 0 <= i < |acc| && Rank(acc[i]) == s;
      assert r[i] == acc[i];
    }
  }

  /** With every section disabled there is nothing to emit. */
  lemma AllDisabledEmitsNothing(cfg: GPEConfig, email: string, phone: string)
    requires forall s :: 0 <= s < 6 ==> !SectionEnabled(cfg, s)
    ensures GenerateJourneyTrackingCode(cfg, email, phone) == []
  {
    assert !SectionEnabled(cfg, 0) && !SectionEnabled(cfg, 1) && !SectionEnabled(cfg, 2);
    assert !SectionEnabled(cfg, 3) && !SectionEnabled(cfg, 4) && !SectionEnabled(cfg, 5);
  }

  /** A click item with suffix `x` whose name was derived by the editor is
      emitted as `click_x` (likewise `idle_`, `viewport_`, `scroll_`). */
  lemma DerivedNamesReachCommands(cfg: GPEConfig, email: string, phone: string, kind: SectionKind, i: nat)
    requires SectionOf(cfg, kind).enabled
    requires EventNamesDerived(kind, SectionOf(cfg, kind).items)
    requires i < |SectionOf(cfg, kind).items|
    ensures exists c :: (c in GenerateJourneyTrackingCode(cfg, email, phone) && c.TrackEvents? && c.kind == kind
      && |c.entries| == |SectionOf(cfg, kind).items|
      && c.entries[i].eventName == Prefix(kind) + OrEmpty(SectionOf(cfg, kind).items[i].eventNameSuffix))
  {
    var c := TrackEvents(kind, Entries(SectionOf(cfg, kind).items, email, phone));
    assert c in ListPart(cfg, kind, email, phone);
    var r := GenerateJourneyTrackingCode(cfg, email, phone);
    assert c in r;
  }

  // ---------------------------------------------------------------------
  // Text shape of the pageview command body
  // ---------------------------------------------------------------------

  /** The members of a command body as text: member names and the commas
      placed between them. */
  datatype Token = Member(name: string) | Comma

  /** No two members stand side by side without a comma: the object literal parses. */
  predicate WellSeparated(ts: seq<Token>)
  {
    forall i :: 0 <= i < |ts| - 1 ==> ts[i].Comma? || ts[i + 1].Comma?
  }

  function TraitTokens(t: TraitFragment): seq<Token>
  {
    if t.customAttributes.Some? then [Member("customAttributes"), Comma, Member("traitsMapper")]
    else [Member("traitsMapper")]
  }

  function PageviewFieldTokens(pv: PageviewConfig): seq<Token>
  {
    if pv.captureAll then [] else [Member("pageTitle"), Comma, Member("pageLocation")]
  }

  /** The pageview body as the source writes it: the comma before the trait
      fragment is emitted only when the page title or the page location is a
      non-empty string. */
  function PageviewBodyAsWritten(pv: PageviewConfig, t: TraitFragment): seq<Token>
  {
    var separator := if !pv.captureAll && (pv.pageTitle != "" || pv.pageLocation != "") then [Comma] else [];
    PageviewFieldTokens(pv) + separator + TraitTokens(t)
  }

  /** With capture-all off and both selectors left empty (the form's reset
      values) the as-written body puts `pageLocation: ''` directly before the
      trait fragment, so the generated script does not parse. */
  lemma PageviewBodyMissesComma(pv: PageviewConfig, t: TraitFragment)
    requires !pv.captureAll && pv.pageTitle == "" && pv.pageLocation == ""
    ensures !WellSeparated(PageviewBodyAsWritten(pv, t))
  {
    var ts := PageviewBodyAsWritten(pv, t);
    assert ts[2] == Member("pageLocation") && ts[3].Member?;
  }

  /** The intended body: a comma whenever there are page fields before the
      trait fragment. */
  function PageviewBody(pv: PageviewConfig, t: TraitFragment): (ts: seq<Token>)
    ensures WellSeparated(ts)
    ensures |ts| > 0 && ts[|ts| - 1] == Member("traitsMapper")
  {
    PageviewFieldTokens(pv) + (if pv.captureAll then [] else [Comma]) + TraitTokens(t)
  }

  /** The two agree whenever a selector is set or everything is captured. */
  lemma PageviewBodyAgrees(pv: PageviewConfig, t: TraitFragment)
    requires pv.captureAll || pv.pageTitle != "" || pv.pageLocation != ""
    ensures PageviewBodyAsWritten(pv, t) == PageviewBody(pv, t)
  {
  }

  // ---------------------------------------------------------------------
  // Bootstrap script (`generateGPEScript`) and the SDK calls it makes
  // ---------------------------------------------------------------------

  const JourneyReady: string := "Journey.ready"
  const QualifiedOpenAction: string := "Journey.qualifiedOpenAction"

  /** The loader parameters: the SDK bundle under the configured domain, the
      environment and the messaging deployment. */
  datatype Bootstrap = Bootstrap(sdkUrl: string, environment: string, deploymentId: string)

  /** The generated script: bootstrap, the tracking commands run on
      `Journey.ready`, and the action name the open-action handler compares with. */
  datatype Script = Script(bootstrap: Bootstrap, trackingCommands: seq<Command>, openActionTarget: string)

  /** The text `"${gpeConfig.gcOpenActionName}"` interpolates: the member's
      value, or the word `undefined` when the record has no such member. */
  function OpenActionTarget(cfg: GPEConfig): string
  {
    if cfg.gcOpenActionName.Some? then cfg.gcOpenActionName.value else "undefined"
  }

  function GenerateGPEScript(cfg: GPEConfig, email: string, phone: string): (s: Script)
    ensures s.bootstrap.sdkUrl == cfg.gcDomain + "/genesys-bootstrap/genesys.min.js"
    ensures s.bootstrap.environment == cfg.gcEnvironment && s.bootstrap.deploymentId == cfg.gcMessagingDeplId
    ensures s.trackingCommands == GenerateJourneyTrackingCode(cfg, email, phone)
    ensures cfg.gcOpenActionName.None? ==> s.openActionTarget == "undefined"
    ensures cfg.gcOpenActionName.Some? ==> s.openActionTarget == cfg.gcOpenActionName.value
  {
    Script(Bootstrap(cfg.gcDomain + "/genesys-bootstrap/genesys.min.js", cfg.gcEnvironment, cfg.gcMessagingDeplId),
           GenerateJourneyTrackingCode(cfg, email, phone),
           OpenActionTarget(cfg))
  }

  /** A call the script makes on the `Genesys` queue function. */
  datatype SdkCall = Subscribe(signal: string, target: string) | IssueCommand(command: Command)

  function IssueAll(cs: seq<Command>): (r: seq<SdkCall>)
    ensures |r| == |cs| && forall i :: 0 <= i < |cs| ==> r[i] == IssueCommand(cs[i])
  {
    if cs == [] then [] else [IssueCommand(cs[0])] + IssueAll(cs[1..])
  }

  /** The calls the script makes, in order: `setupJourneySubscriptions()` at the
      top level as soon as it runs; `subscribe Journey.ready` once the bundle
      has loaded; and, when the plug-in reports ready, the tracking commands
      followed by a second `setupJourneySubscriptions()`. */
  function SdkCalls(s: Script, sdkLoaded: bool, journeyReady: bool): seq<SdkCall>
  {
    [Subscribe(QualifiedOpenAction, s.openActionTarget)]
    + (if sdkLoaded then
         [Subscribe(JourneyReady, "")]
         + (if journeyReady then IssueAll(s.trackingCommands) + [Subscribe(QualifiedOpenAction, s.openActionTarget)] else [])
       else [])
  }

  /** The commands a call sequence issues, in order. */
  function IssuedCommands(calls: seq<SdkCall>): seq<Command>
  {
    if calls == [] then []
    else (if calls[0].IssueCommand? then [calls[0].command] else []) + IssuedCommands(calls[1..])
  }

  predicate IsOpenActionSubscription(c: SdkCall)
  {
    c.Subscribe? && c.signal == QualifiedOpenAction
  }

  /** How many open-action handlers a call sequence installs. */
  function OpenActionSubscriptions(calls: seq<SdkCall>): nat
  {
    if calls == [] then 0
    else (if IsOpenActionSubscription(calls[0]) then 1 else 0)
         + OpenActionSubscriptions(calls[1..])
  }

  lemma {:induction false} IssuedCommandsAppend(a: seq<SdkCall>, b: seq<SdkCall>)
    ensures IssuedCommands(a + b) == IssuedCommands(a) + IssuedCommands(b)
  {
    if a != [] {
      assert (a + b)[1..] == a[1..] + b;
      IssuedCommandsAppend(a[1..], b);
    } else {
      assert a + b == b;
    }
  }

  lemma {:induction false} OpenActionSubscriptionsAppend(a: seq<SdkCall>, b: seq<SdkCall>)
    ensures OpenActionSubscriptions(a + b) == OpenActionSubscriptions(a) + OpenActionSubscriptions(b)
  {
    if a != [] {
      assert (a + b)[1..] == a[1..] + b;
      OpenActionSubscriptionsAppend(a[1..], b);
    } else {
      assert a + b == b;
    }
  }

  lemma {:induction false} IssueAllFacts(cs: seq<Command>)
    ensures IssuedCommands(IssueAll(cs)) == cs
    ensures OpenActionSubscriptions(IssueAll(cs)) == 0
  {
    if cs != [] {
      IssueAllFacts(cs[1..]);
      assert IssueAll(cs)[1..] == IssueAll(cs[1..]);
    }
  }

  /** The script issues its tracking commands only after the bundle has loaded
      and `Journey.ready` has fired, and then all of them, in order; the
      open-action handler is installed once at start and a second time on
      readiness. */
  lemma SdkCallsSpec(s: Script, sdkLoaded: bool, journeyReady: bool)
    ensures IssuedCommands(SdkCalls(s, sdkLoaded, journeyReady))
      == (if sdkLoaded && journeyReady then s.trackingCommands else [])
    ensures OpenActionSubscriptions(SdkCalls(s, sdkLoaded, journeyReady))
      == (if sdkLoaded && journeyReady then 2 else 1)
    ensures forall i :: (0 <= i < |SdkCalls(s, sdkLoaded, journeyReady)|
      && SdkCalls(s, sdkLoaded, journeyReady)[i].IssueCommand?
      ==> 1 < i && SdkCalls(s, sdkLoaded, journeyReady)[1] == Subscribe(JourneyReady, ""))
  {
    var head := [Subscribe(QualifiedOpenAction, s.openActionTarget)];
    var ready := [Subscribe(JourneyReady, "")];
    var last := [Subscribe(QualifiedOpenAction, s.openActionTarget)];
    var issued := IssueAll(s.trackingCommands);
    IssueAllFacts(s.trackingCommands);
    if sdkLoaded {
      if journeyReady {
        IssuedCommandsAppend(issued, last);
        OpenActionSubscriptionsAppend(issued, last);
        IssuedCommandsAppend(ready, issued + last);
        OpenActionSubscriptionsAppend(ready, issued + last);
        IssuedCommandsAppend(head, ready + (issued + last));
        OpenActionSubscriptionsAppend(head, ready + (issued + last));
        assert SdkCalls(s, sdkLoaded, journeyReady) == head + (ready + (issued + last));
      } else {
        IssuedCommandsAppend(head, ready);
        OpenActionSubscriptionsAppend(head, ready);
        assert SdkCalls(s, sdkLoaded, journeyReady) == head + ready;
      }
    }
  }

  /** With every section disabled the script issues no tracking command but
      still installs the open-action handler. */
  lemma DisabledScriptStillSubscribes(cfg: GPEConfig, email: string, phone: string, sdkLoaded: bool, journeyReady: bool)
    requires forall s :: 0 <= s < 6 ==> !SectionEnabled(cfg, s)
    ensures IssuedCommands(SdkCalls(GenerateGPEScript(cfg, email, phone), sdkLoaded, journeyReady)) == []
    ensures OpenActionSubscriptions(SdkCalls(GenerateGPEScript(cfg, email, phone), sdkLoaded, journeyReady)) >= 1
  {
    AllDisabledEmitsNothing(cfg, email, phone);
    SdkCallsSpec(GenerateGPEScript(cfg, email, phone), sdkLoaded, journeyReady);
  }

  // ---------------------------------------------------------------------
  // The open-action handler
  // ---------------------------------------------------------------------

  /** What the handler asks of the messaging widget's `utilAPI`. */
  datatype WidgetCall = ShowChatButton | LaunchChat

  /** One handler run: on a matching action name and an available `utilAPI`,
      show the chat button and launch the chat; otherwise nothing. */
  function HandleOpenAction(target: string, actionName: string, utilApiAvailable: bool): seq<WidgetCall>
  {
    if actionName == target && utilApiAvailable then [ShowChatButton, LaunchChat] else []
  }

  /** A `Journey.qualifiedOpenAction` event runs every installed handler in
      turn. */
  function DispatchOpenAction(calls: seq<SdkCall>, actionName: string, utilApiAvailable: bool): seq<WidgetCall>
  {
    if calls == [] then []
    else (if IsOpenActionSubscription(calls[0])
          then HandleOpenAction(calls[0].target, actionName, utilApiAvailable) else [])
         + DispatchOpenAction(calls[1..], actionName, utilApiAvailable)
  }

  function Launches(ws: seq<WidgetCall>): nat
  {
    if ws == [] then 0 else (if ws[0] == LaunchChat then 1 else 0) + Launches(ws[1..])
  }

  lemma {:induction false} LaunchesAppend(a: seq<WidgetCall>, b: seq<WidgetCall>)
    ensures Launches(a + b) == Launches(a) + Launches(b)
  {
    if a != [] {
      assert (a + b)[1..] == a[1..] + b;
      LaunchesAppend(a[1..], b);
    } else {
      assert a + b == b;
    }
  }

  /** When every installed handler compares with the same target, one event
      launches the chat once per installed handler if its name matches and
      the widget is available, and never otherwise. */
  lemma {:induction false} DispatchLaunches(calls: seq<SdkCall>, target: string, actionName: string, utilApiAvailable: bool)
    requires forall i :: 0 <= i < |calls| && IsOpenActionSubscription(calls[i])
               ==> calls[i].target == target
    ensures Launches(DispatchOpenAction(calls, actionName, utilApiAvailable))
      == (if actionName == target && utilApiAvailable then OpenActionSubscriptions(calls) else 0)
  {
    if calls != [] {
      var first := if IsOpenActionSubscription(calls[0])
                   then HandleOpenAction(calls[0].target, actionName, utilApiAvailable) else [];
      LaunchesAppend(first, DispatchOpenAction(calls[1..], actionName, utilApiAvailable));
      forall i | 0 <= i < |calls[1..]| && IsOpenActionSubscription(calls[1..][i])
        ensures calls[1..][i].target == target
      {
        assert calls[1..][i] == calls[i + 1];
      }
      DispatchLaunches(calls[1..], target, actionName, utilApiAvailable);
    }
  }

  /** Once the plug-in is ready, a matching open-action event launches the
      chat twice: the handler was subscribed both at the top level and in the
      ready callback. */
  lemma MatchingActionLaunchesTwiceWhenReady(s: Script, utilApiAvailable: bool)
    requires utilApiAvailable
    ensures Launches(DispatchOpenAction(SdkCalls(s, true, true), s.openActionTarget, utilApiAvailable)) == 2
  {
    var calls := SdkCalls(s, true, true);
    IssueAllFacts(s.trackingCommands);
    forall i | 2 <= i < 2 + |s.trackingCommands| ensures calls[i].IssueCommand? {
      assert calls[i] == IssueAll(s.trackingCommands)[i - 2];
    }
    DispatchLaunches(calls, s.openActionTarget, s.openActionTarget, utilApiAvailable);
    SdkCallsSpec(s, true, true);
  }
}
