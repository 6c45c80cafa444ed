/** The configuration editor (`genesysGPEConfig.js`): a form over one tracking
    configuration, a create/edit/start view machine, in-place edits of the
    tracked-item and attribute lists, mandatory-field validation, and the
    save pass that cleans the record up and re-derives every event name. */
module ConfigEditor {
  import opened Common
  import opened ConfigModel
  import ScriptCompiler

  /** The domain → environment table `getGCEnvironmentFromDomain` looks up in. */
  const DomainMapping: map<string, string> := map[
    "https://apps.mypurecloud.ie" := "prod-euw1",
    "https://apps.mypurecloud.de" := "prod-euc1",
    "https://apps.euw2.pure.cloud" := "prod-euw2",
    "https://apps.euc2.pure.cloud" := "prod-euc2",
    "https://apps.mypurecloud.com" := "prod-use1",
    "https://apps.use2.us-gov-pure.cloud" := "prod-use2",
    "https://apps.usw2.pure.cloud" := "prod-usw2",
    "https://apps.cac1.pure.cloud" := "prod-cac1",
    "https://apps.sae1.pure.cloud" := "prod-sae1",
    "https://apps.aps1.pure.cloud" := "prod-aps1",
    "https://apps.apne2.pure.cloud" := "prod-apne2",
    "https://apps.mypurecloud.com.au" := "prod-apse2",
    "https://apps.apne3.pure.cloud" := "prod-apne3",
    "https://apps.mypurecloud.jp" := "prod-apne1",
    "https://apps.mec1.pure.cloud" := "prod-mec1"]

  /** `getGCEnvironmentFromDomain`: the table's environment, or `''` for a
      domain the table does not list. */
  function GetGCEnvironmentFromDomain(domain: string): (env: string)
  {
    if domain in DomainMapping then DomainMapping[domain] else ""
  }

  /** Every listed domain maps to a non-empty `prod-` environment, so the
      lookup is empty exactly for the unlisted domains. */
  lemma EnvironmentKnownIffListed(domain: string)
    ensures GetGCEnvironmentFromDomain(domain) != "" <==> domain in DomainMapping
    ensures domain in DomainMapping ==>
      |GetGCEnvironmentFromDomain(domain)| > 5 && GetGCEnvironmentFromDomain(domain)[..5] == "prod-"
  {
  }

  /** Some rows of the table, including two domains one of which extends the
      other, and a near miss with a trailing slash. */
  lemma EnvironmentExamples()
    ensures GetGCEnvironmentFromDomain("https://apps.mypurecloud.ie") == "prod-euw1"
    ensures GetGCEnvironmentFromDomain("https://apps.mypurecloud.com") == "prod-use1"
    ensures GetGCEnvironmentFromDomain("https://apps.mypurecloud.com.au") == "prod-apse2"
    ensures GetGCEnvironmentFromDomain("https://apps.mypurecloud.jp") == "prod-apne1"
    ensures GetGCEnvironmentFromDomain("https://apps.mypurecloud.ie/") == ""
  {
  }

  /** Which member of a custom attribute an input edits. */
  datatype AttributeField = Name | Value | TraitName

  /** A text input bound through `data-field` or its own handler. */
  datatype TextField = ConfigName | GCEnvironment | GCMessagingDeplId | SfWmUrl | SfOrgId | SfWmName | OpenActionName

  /** The inputs of the pageview section. */
  datatype PageviewEdit = PageviewEnabled(checked: bool) | PageviewCaptureAll(checked: bool)
                        | PageTitle(value: string) | PageLocation(value: string)

  /** The inputs of the forms section. */
  datatype FormsEdit = FormsEnabled(checked: bool) | FormsCaptureAll(checked: bool)
                     | CaptureOnAbandon(checked: bool) | CaptureOnSubmit(checked: bool)
                     | FormSelector(value: string) | FormName(value: string)

  /** The inputs of one tracked item: its event-name suffix, or its key
      (selector, idle seconds already parsed, percentage already parsed). */
  datatype ItemEdit = SetSuffix(value: string) | SetKey(key: ItemKey)

  /** One `saveGPEConfig` call: the record and the id to overwrite, if any. */
  datatype SaveCall = SaveCall(payload: GPEConfig, configId: Option<string>)

  /** The text fields of the form. */
  datatype Identity = Identity(
    configName: string,
    gcDomain: string,
    gcEnvironment: string,
    gcMessagingDeplId: string,
    openActionName: string,
    sfWmUrl: string,
    sfOrgId: string,
    sfWmName: string)

  /** The six tracker sections of the form. */
  datatype Tracking = Tracking(
    pageviewConfig: PageviewConfig,
    formsTrackConfig: FormsTrackConfig,
    clickEventsConfig: ListSection,
    idleEventsConfig: ListSection,
    inViewportConfig: ListSection,
    scrollDepthConfig: ListSection)

  /** The view machine and the environment-input lock. */
  datatype ViewFlags = ViewFlags(
    showInitialChoice: bool,
    showExistingConfigDropdown: bool,
    showConfigForm: bool,
    selectedConfigAction: string,
    selectedExistingConfig: string,
    isEditMode: bool,
    gcEnvironmentDisabled: bool)

  /** What the editor has shown or asked of the server so far. */
  datatype Requests = Requests(toasts: seq<Toast>, detailRequests: seq<string>, saveCalls: seq<SaveCall>)

  /** Everything the editor holds. */
  datatype EditorState = EditorState(id: Identity, tr: Tracking, view: ViewFlags, io: Requests)

  const BlankAttribute := CustomAttribute("", "", "")
  const BlankIdentity := Identity("", "", "", "", "", "", "", "")
  const BlankPageview := PageviewConfig(false, false, "", "", [])
  const BlankSection := ListSection(false, [])
  /** The sections `resetForm` writes: the forms selector becomes `''`. */
  const BlankTracking := Tracking(BlankPageview, FormsTrackConfig(false, false, "", "", false, true, None),
                                  BlankSection, BlankSection, BlankSection, BlankSection)
  const StartView := ViewFlags(true, false, false, "", "", false, false)

  /** The state of a freshly created editor: the forms selector starts as
      `'form'`, and no forms attribute list exists. */
  const InitialState := EditorState(
    BlankIdentity,
    BlankTracking.(formsTrackConfig := BlankTracking.formsTrackConfig.(selector := "form")),
    StartView, Requests([], [], []))

  /** `resetForm`: every form value back to blank; the view and the
      environment lock are kept. */
  function Reset(st: EditorState): EditorState
  {
    st.(id := BlankIdentity, tr := BlankTracking)
  }

  /** `returnToStart`: the start view with a blank form; the environment lock
      is kept. */
  function AtStart(st: EditorState): EditorState
  {
    Reset(st).(view := StartView.(gcEnvironmentDisabled := st.view.gcEnvironmentDisabled))
  }

  function SectionIn(tr: Tracking, kind: SectionKind): ListSection
  {
    match kind
    case Click => tr.clickEventsConfig
    case Idle => tr.idleEventsConfig
    case Viewport => tr.inViewportConfig
    case Scroll => tr.scrollDepthConfig
  }

  /** `tr` with the list section of `kind` replaced. */
  function WithSection(tr: Tracking, kind: SectionKind, s: ListSection): (r: Tracking)
    ensures SectionIn(r, kind) == s
    ensures forall k :: k != kind ==> SectionIn(r, k) == SectionIn(tr, k)
    ensures r.pageviewConfig == tr.pageviewConfig && r.formsTrackConfig == tr.formsTrackConfig
  {
    match kind
    case Click => tr.(clickEventsConfig := s)
    case Idle => tr.(idleEventsConfig := s)
    case Viewport => tr.(inViewportConfig := s)
    case Scroll => tr.(scrollDepthConfig := s)
  }

  /** `st` with the items of `kind` replaced; the section's flag is kept. */
  function WithItems(st: EditorState, kind: SectionKind, items: seq<TrackedItem>): EditorState
  {
    st.(tr := WithSection(st.tr, kind, SectionIn(st.tr, kind).(items := items)))
  }

  function SetAttributeField(a: CustomAttribute, field: AttributeField, value: string): CustomAttribute
  {
    match field
    case Name => a.(name := value)
    case Value => a.(value := value)
    case TraitName => a.(traitName := value)
  }

  /** An indexed write into an attribute list; an index past the end throws
      in the source before anything is written, so nothing changes. */
  function ChangeAttribute(attrs: seq<CustomAttribute>, index: nat, field: AttributeField, value: string): seq<CustomAttribute>
  {
    if index < |attrs| then attrs[index := SetAttributeField(attrs[index], field, value)] else attrs
  }

  /** The key a new item of each section starts with. */
  function DefaultKey(kind: SectionKind): ItemKey
  {
    match kind
    case Click => Selector("")
    case Viewport => Selector("")
    case Idle => IdleAfterSeconds(30)
    case Scroll => Percentage(25)
  }

  /** The item `add*Event` pushes: default key, no suffix, an empty event
      name and no attributes. */
  function NewItem(kind: SectionKind): TrackedItem
  {
    TrackedItem(DefaultKey(kind), None, "", [])
  }

  /** One input of one item: a suffix edit writes the suffix and the derived
      event name together, any other edit writes its member only. */
  function ApplyItemEdit(kind: SectionKind, item: TrackedItem, edit: ItemEdit): TrackedItem
  {
    match edit
    case SetSuffix(v) => item.(eventNameSuffix := Some(v), eventName := Prefix(kind) + v)
    case SetKey(k) => item.(key := k)
  }

  /** `handle*EventChange` on the item list; a missing item throws, so
      nothing changes. */
  function EditItem(kind: SectionKind, items: seq<TrackedItem>, index: nat, edit: ItemEdit): seq<TrackedItem>
  {
    if index < |items| then items[index := ApplyItemEdit(kind, items[index], edit)] else items
  }

  /** A suffix edit writes the suffix and the derived name of that one item,
      keeps every other item, and leaves the list's event names derived when
      they were. */
  lemma SuffixEditKeepsNamesDerived(kind: SectionKind, items: seq<TrackedItem>, index: nat, v: string)
    requires index < |items|
    ensures var r := EditItem(kind, items, index, SetSuffix(v));
      |r| == |items|
      && r[index].eventNameSuffix == Some(v) && r[index].eventName == Prefix(kind) + v
      && r[index].key == items[index].key && r[index].customAttributes == items[index].customAttributes
      && (forall j :: 0 <= j < |r| && j != index ==> r[j] == items[j])
      && (EventNamesDerived(kind, items) ==> EventNamesDerived(kind, r))
  {
  }

  /** An edit of an index past the end changes nothing. */
  lemma EditPastEndIsNoOp(kind: SectionKind, items: seq<TrackedItem>, index: nat, edit: ItemEdit)
    requires index >= |items|
    ensures EditItem(kind, items, index, edit) == items
  {
  }

  /** A freshly added item does not carry its derived name (`''` instead of
      the bare prefix): the per-item edits alone do not keep the names
      derived, which is why saving recomputes them. */
  lemma AddedItemBreaksDerivedNames(kind: SectionKind, items: seq<TrackedItem>)
    ensures !EventNamesDerived(kind, items + [NewItem(kind)])
  {
    var r := items + [NewItem(kind)];
    assert r[|items|].eventName == "" != Prefix(kind) == DerivedEventName(kind, r[|items|]);
  }

  /** The `forEach` pass of `saveConfiguration` over one section. */
  function Recomputed(kind: SectionKind, items: seq<TrackedItem>): seq<TrackedItem>
  {
    seq(|items|, i requires 0 <= i < |items| => items[i].(eventName := DerivedEventName(kind, items[i])))
  }

  /** The recompute pass makes every event name derived, changes nothing but
      event names, and is idempotent. */
  lemma RecomputedDerived(kind: SectionKind, items: seq<TrackedItem>)
    ensures EventNamesDerived(kind, Recomputed(kind, items))
    ensures |Recomputed(kind, items)| == |items|
    ensures forall i :: 0 <= i < |items| ==> Recomputed(kind, items)[i] == items[i].(eventName := Recomputed(kind, items)[i].eventName)
    ensures EventNamesDerived(kind, items) ==> Recomputed(kind, items) == items
    ensures Recomputed(kind, Recomputed(kind, items)) == Recomputed(kind, items)
  {
    var r := Recomputed(kind, items);
    if EventNamesDerived(kind, items) {
      assert forall i :: 0 <= i < |items| ==> r[i] == items[i];
    }
    assert forall i :: 0 <= i < |r| ==> Recomputed(kind, r)[i] == r[i];
  }

  /** `cleanUpConfigurations`. */
  function CleanedUp(tr: Tracking): Tracking
  {
    var pv := tr.pageviewConfig;
    var fm := tr.formsTrackConfig;
    tr.(pageviewConfig := if pv.captureAll then pv.(pageTitle := "", pageLocation := "") else pv,
        formsTrackConfig := if fm.captureAll then fm.(selector := "", formName := "") else fm)
  }

  /** The clean-up touches only the four capture-all-dependent fields, empties
      them exactly under their section's `captureAll`, and is idempotent. */
  lemma CleanUpSpec(tr: Tracking)
    ensures var r := CleanedUp(tr);
      r.pageviewConfig.(pageTitle := "", pageLocation := "") == tr.pageviewConfig.(pageTitle := "", pageLocation := "")
      && r.formsTrackConfig.(selector := "", formName := "") == tr.formsTrackConfig.(selector := "", formName := "")
      && r.(pageviewConfig := tr.pageviewConfig, formsTrackConfig := tr.formsTrackConfig) == tr
      && (tr.pageviewConfig.captureAll ==> r.pageviewConfig.pageTitle == "" && r.pageviewConfig.pageLocation == "")
      && (!tr.pageviewConfig.captureAll ==> r.pageviewConfig == tr.pageviewConfig)
      && (tr.formsTrackConfig.captureAll ==> r.formsTrackConfig.selector == "" && r.formsTrackConfig.formName == "")
      && (!tr.formsTrackConfig.captureAll ==> r.formsTrackConfig == tr.formsTrackConfig)
      && CleanedUp(r) == r
  {
  }

  /** The required fields, in the order the error message lists them, each
      with its current value; the open-action name is required only when
      creating. */
  function MandatoryFields(id: Identity, isEditMode: bool): seq<(string, string)>
  {
    [("Configuration Name", id.configName), ("GC Domain", id.gcDomain),
     ("GC Environment", id.gcEnvironment), ("GC Messaging Deployment ID", id.gcMessagingDeplId),
     ("SF WM URL", id.sfWmUrl), ("SF Org ID", id.sfOrgId), ("SF WM Name", id.sfWmName)]
    + (if isEditMode then [] else [("Open Action Name", id.openActionName)])
  }

  /** The labels of the empty fields, in order. */
  function EmptyLabels(fields: seq<(string, string)>): (labels: seq<string>)
    ensures |labels| <= |fields|
  {
    if fields == [] then []
    else (if fields[0].1 == "" then [fields[0].0] else []) + EmptyLabels(fields[1..])
  }

  lemma {:induction false} EmptyLabelsAppend(a: seq<(string, string)>, b: seq<(string, string)>)
    ensures EmptyLabels(a + b) == EmptyLabels(a) + EmptyLabels(b)
  {
    if a == [] {
      assert a + b == b;
    } else {
      assert (a + b)[1..] == a[1..] + b;
      EmptyLabelsAppend(a[1..], b);
    }
  }

  /** The list is empty exactly when no field is empty, and a label is listed
      exactly when one of its fields is empty. */
  lemma {:induction false} EmptyLabelsSpec(fields: seq<(string, string)>)
    ensures EmptyLabels(fields) == [] <==> forall i :: 0 <= i < |fields| ==> fields[i].1 != ""
    ensures forall l :: l in EmptyLabels(fields) <==> exists i :: 0 <= i < |fields| && fields[i] == (l, "")
  {
    if fields != [] {
      EmptyLabelsSpec(fields[1..]);
      forall l | (exists i :: 0 <= i < |fields| && fields[i] == (l, ""))
        ensures l in EmptyLabels(fields)
      {
        var i :| 0 <= i < |fields| && fields[i] == (l, "");
        if i > 0 {
          assert fields[1..][i - 1] == (l, "");
        }
      }
      forall l | l in EmptyLabels(fields[1..])
        ensures exists i :: 0 <= i < |fields| && fields[i] == (l, "")
      {
        var i :| 0 <= i < |fields[1..]| && fields[1..][i] == (l, "");
        assert fields[i + 1] == (l, "");
      }
    }
  }

  /** Validation passes. */
  predicate MandatoryOk(st: EditorState)
  {
    EmptyLabels(MandatoryFields(st.id, st.view.isEditMode)) == []
  }

  /** All required fields are filled; the open-action name only outside edit mode. */
  predicate AllFilled(id: Identity, isEditMode: bool)
  {
    id.configName != "" && id.gcDomain != "" && id.gcEnvironment != "" && id.gcMessagingDeplId != ""
    && id.sfWmUrl != "" && id.sfOrgId != "" && id.sfWmName != ""
    && (isEditMode || id.openActionName != "")
  }

  /** Validation fails exactly when a required field is empty, and the open
      action name is reported missing only outside edit mode. */
  lemma MandatoryOkIffFilled(id: Identity, isEditMode: bool)
    ensures EmptyLabels(MandatoryFields(id, isEditMode)) == [] <==> AllFilled(id, isEditMode)
    ensures "Open Action Name" in EmptyLabels(MandatoryFields(id, isEditMode)) <==> !isEditMode && id.openActionName == ""
    ensures "Configuration Name" in EmptyLabels(MandatoryFields(id, isEditMode)) <==> id.configName == ""
  {
    var fs := MandatoryFields(id, isEditMode);
    EmptyLabelsSpec(fs);
    if !isEditMode {
      assert fs[7] == ("Open Action Name", id.openActionName);
    }
    assert fs[0] == ("Configuration Name", id.configName);
    assert fs[1].1 == id.gcDomain && fs[2].1 == id.gcEnvironment && fs[3].1 == id.gcMessagingDeplId;
    assert fs[4].1 == id.sfWmUrl && fs[5].1 == id.sfOrgId && fs[6].1 == id.sfWmName;
    if AllFilled(id, isEditMode) {
      forall i | 0 <= i < |fs| ensures fs[i].1 != "" {
        assert i == 0 || i == 1 || i == 2 || i == 3 || i == 4 || i == 5 || i == 6 || i == 7;
      }
    }
    forall i | 0 <= i < |fs| && fs[i].0 == "Open Action Name" ensures i == 7 {
      assert i == 0 || i == 1 || i == 2 || i == 3 || i == 4 || i == 5 || i == 6 || i == 7;
    }
    forall i | 0 <= i < |fs| && fs[i].0 == "Configuration Name" ensures i == 0 {
      assert i == 0 || i == 1 || i == 2 || i == 3 || i == 4 || i == 5 || i == 6 || i == 7;
    }
  }

  /** `missingFields.join(', ')`. */
  function Join(xs: seq<string>, sep: string): string
  {
    if xs == [] then ""
    else if |xs| == 1 then xs[0]
    else xs[0] + sep + Join(xs[1..], sep)
  }

  /** The toast a failed validation raises. */
  function MissingFieldsToast(missing: seq<string>): Toast
  {
    Toast("Error", "Please fill out the following mandatory fields: " + Join(missing, ", "), "error")
  }

  /** The four recompute passes, in the order `saveConfiguration` runs them. */
  function RecomputeAll(tr: Tracking): Tracking
  {
    var t1 := tr.(clickEventsConfig := tr.clickEventsConfig.(items := Recomputed(Click, tr.clickEventsConfig.items)));
    var t2 := t1.(inViewportConfig := t1.inViewportConfig.(items := Recomputed(Viewport, t1.inViewportConfig.items)));
    var t3 := t2.(idleEventsConfig := t2.idleEventsConfig.(items := Recomputed(Idle, t2.idleEventsConfig.items)));
    t3.(scrollDepthConfig := t3.scrollDepthConfig.(items := Recomputed(Scroll, t3.scrollDepthConfig.items)))
  }

  /** The record `saveConfiguration` sends. `openActionName` is present only
      when creating and non-empty; `gcOpenActionName` is never written. */
  function Payload(id: Identity, tr: Tracking, isEditMode: bool): GPEConfig
  {
    GPEConfig(id.configName, id.gcDomain, id.gcEnvironment, id.gcMessagingDeplId,
              id.sfWmUrl, id.sfOrgId, id.sfWmName,
              tr.pageviewConfig, tr.formsTrackConfig,
              tr.clickEventsConfig, tr.idleEventsConfig, tr.inViewportConfig, tr.scrollDepthConfig,
              if !isEditMode && id.openActionName != "" then Some(id.openActionName) else None,
              None)
  }

  /** The call a passing save issues. */
  function SaveCallFor(st: EditorState): SaveCall
  {
    SaveCall(Payload(st.id, RecomputeAll(CleanedUp(st.tr)), st.view.isEditMode),
             if st.view.isEditMode then Some(st.view.selectedExistingConfig) else None)
  }

  /** The state after a save that passed validation: cleaned up, names
      recomputed, one call issued. */
  function AfterSave(st: EditorState): EditorState
  {
    st.(tr := RecomputeAll(CleanedUp(st.tr)), io := st.io.(saveCalls := st.io.saveCalls + [SaveCallFor(st)]))
  }

  /** What a passing save sends: every tracked item named by its prefix and
      suffix with nothing else about it changed, the pageview and forms
      sections in their cleaned-up form, all seven identity fields as typed, the open-action name only when creating, the id only when
      editing, and no `gcOpenActionName` — so the runtime's open-action
      target for a saved record is always `undefined`. */
  lemma SavedPayloadSpec(st: EditorState)
    ensures var call := SaveCallFor(st);
      (forall kind :: EventNamesDerived(kind, SectionOf(call.payload, kind).items))
      && (forall kind :: |SectionOf(call.payload, kind).items| == |SectionIn(st.tr, kind).items|)
      && (forall kind :: SectionOf(call.payload, kind).enabled == SectionIn(st.tr, kind).enabled)
      && (forall kind, i :: 0 <= i < |SectionIn(st.tr, kind).items| ==>
            SectionOf(call.payload, kind).items[i].key == SectionIn(st.tr, kind).items[i].key
            && SectionOf(call.payload, kind).items[i].eventNameSuffix == SectionIn(st.tr, kind).items[i].eventNameSuffix
            && SectionOf(call.payload, kind).items[i].customAttributes == SectionIn(st.tr, kind).items[i].customAttributes
            && SectionOf(call.payload, kind).items[i]
               == SectionIn(st.tr, kind).items[i].(eventName := DerivedEventName(kind, SectionIn(st.tr, kind).items[i])))
      && call.payload.pageviewConfig == CleanedUp(st.tr).pageviewConfig
      && call.payload.formsTrackConfig == CleanedUp(st.tr).formsTrackConfig
      && call.payload.configName == st.id.configName && call.payload.gcDomain == st.id.gcDomain
      && call.payload.gcEnvironment == st.id.gcEnvironment && call.payload.gcMessagingDeplId == st.id.gcMessagingDeplId
      && call.payload.sfWmUrl == st.id.sfWmUrl && call.payload.sfOrgId == st.id.sfOrgId
      && call.payload.sfWmName == st.id.sfWmName
      && (call.payload.openActionName.Some? <==> !st.view.isEditMode && st.id.openActionName != "")
      && (call.payload.openActionName.Some? ==> call.payload.openActionName.value == st.id.openActionName)
      && (call.configId.Some? <==> st.view.isEditMode)
      && (call.configId.Some? ==> call.configId.value == st.view.selectedExistingConfig)
      && ScriptCompiler.OpenActionTarget(call.payload) == "undefined"
  {
    SavedSections(st);
    forall kind {
      RecomputedDerived(kind, SectionIn(st.tr, kind).items);
    }
  }

  /** Each list section is saved with its flag and items as held, every
      item's name recomputed. */
  lemma SavedSections(st: EditorState)
    ensures forall kind ::
              SectionOf(SaveCallFor(st).payload, kind)
              == SectionIn(st.tr, kind).(items := Recomputed(kind, SectionIn(st.tr, kind).items))
  {
    var c := CleanedUp(st.tr);
    var p := RecomputeAll(c);
    var payload := SaveCallFor(st).payload;
    forall kind ensures SectionOf(payload, kind) == SectionIn(p, kind)
      && SectionIn(p, kind) == SectionIn(c, kind).(items := Recomputed(kind, SectionIn(c, kind).items))
      && SectionIn(c, kind) == SectionIn(st.tr, kind)
    {
    }
  }

  /** The form's text fields after one input. */
  function WithText(id: Identity, field: TextField, value: string): Identity
  {
    match field
    case ConfigName => id.(configName := value)
    case GCEnvironment => id.(gcEnvironment := value)
    case GCMessagingDeplId => id.(gcMessagingDeplId := value)
    case SfWmUrl => id.(sfWmUrl := value)
    case SfOrgId => id.(sfOrgId := value)
    case SfWmName => id.(sfWmName := value)
    case OpenActionName => id.(openActionName := value)
  }

  /** The text fields `loadExistingConfig` copies from a saved record; the
      open-action name is not among them. */
  function LoadedIdentity(id: Identity, c: GPEConfig): Identity
  {
    Identity(c.configName, c.gcDomain, c.gcEnvironment, c.gcMessagingDeplId, id.openActionName, c.sfWmUrl, c.sfOrgId, c.sfWmName)
  }

  function TrackingOf(c: GPEConfig): Tracking
  {
    Tracking(c.pageviewConfig, c.formsTrackConfig, c.clickEventsConfig, c.idleEventsConfig, c.inViewportConfig, c.scrollDepthConfig)
  }

  /** The state after a saved record is loaded into the form. */
  function Loaded(st: EditorState, c: GPEConfig): EditorState
  {
    st.(id := LoadedIdentity(st.id, c), tr := TrackingOf(c), view := st.view.(showConfigForm := true))
  }

  /** Loading a record and saving it unchanged in edit mode sends back the
      same identity and sections, event names re-derived, without an
      open-action name, under the selected id. */
  lemma LoadThenSaveRoundTrip(st: EditorState, c: GPEConfig)
    requires st.view.isEditMode
    requires !c.pageviewConfig.captureAll && !c.formsTrackConfig.captureAll
    requires forall kind :: EventNamesDerived(kind, SectionOf(c, kind).items)
    ensures var call := SaveCallFor(Loaded(st, c));
      call.payload == c.(openActionName := None, gcOpenActionName := None)
      && call.configId == Some(st.view.selectedExistingConfig)
  {
    var l := Loaded(st, c);
    RecomputedDerived(Click, c.clickEventsConfig.items);
    RecomputedDerived(Viewport, c.inViewportConfig.items);
    RecomputedDerived(Idle, c.idleEventsConfig.items);
    RecomputedDerived(Scroll, c.scrollDepthConfig.items);
    assert SectionOf(c, Click) == c.clickEventsConfig;
    assert SectionOf(c, Viewport) == c.inViewportConfig;
    assert SectionOf(c, Idle) == c.idleEventsConfig;
    assert SectionOf(c, Scroll) == c.scrollDepthConfig;
    assert CleanedUp(l.tr) == l.tr;
  }

  class GPEConfigEditor {
    var configName: string
    var gcDomain: string
    var gcEnvironment: string
    var gcMessagingDeplId: string
    var openActionName: string
    var sfWmUrl: string
    var sfOrgId: string
    var sfWmName: string
    var pageviewConfig: PageviewConfig
    var formsTrackConfig: FormsTrackConfig
    var clickEventsConfig: ListSection
    var idleEventsConfig: ListSection
    var inViewportConfig: ListSection
    var scrollDepthConfig: ListSection
    var showInitialChoice: bool
    var showExistingConfigDropdown: bool
    var showConfigForm: bool
    var selectedConfigAction: string
    var selectedExistingConfig: string
    var isEditMode: bool
    var gcEnvironmentDisabled: bool
    /** Toasts raised, in order. */
    var toasts: seq<Toast>
    /** `getConfigDetails` calls issued, with the id asked for. */
    var detailRequests: seq<string>
    /** `saveGPEConfig` calls issued. */
    var saveCalls: seq<SaveCall>

    function State(): EditorState
      reads this
    {
      EditorState(
        Identity(configName, gcDomain, gcEnvironment, gcMessagingDeplId, openActionName, sfWmUrl, sfOrgId, sfWmName),
        Tracking(pageviewConfig, formsTrackConfig, clickEventsConfig, idleEventsConfig, inViewportConfig, scrollDepthConfig),
        ViewFlags(showInitialChoice, showExistingConfigDropdown, showConfigForm, selectedConfigAction,
                  selectedExistingConfig, isEditMode, gcEnvironmentDisabled),
        Requests(toasts, detailRequests, saveCalls))
    }

    constructor ()
      ensures State() == InitialState
    {
      configName, gcDomain, gcEnvironment, gcMessagingDeplId := "", "", "", "";
      openActionName, sfWmUrl, sfOrgId, sfWmName := "", "", "", "";
      pageviewConfig := BlankPageview;
      formsTrackConfig := FormsTrackConfig(false, false, "form", "", false, true, None);
      clickEventsConfig, idleEventsConfig, inViewportConfig, scrollDepthConfig := BlankSection, BlankSection, BlankSection, BlankSection;
      showInitialChoice, showExistingConfigDropdown, showConfigForm := true, false, false;
      selectedConfigAction, selectedExistingConfig, isEditMode, gcEnvironmentDisabled := "", "", false, false;
      toasts, detailRequests, saveCalls := [], [], [];
    }

    /** Writes the text fields. */
    method SetIdentity(id: Identity)
      modifies this`configName, this`gcDomain, this`gcEnvironment, this`gcMessagingDeplId
      modifies this`openActionName, this`sfWmUrl, this`sfOrgId, this`sfWmName
      ensures configName == id.configName && gcDomain == id.gcDomain && gcEnvironment == id.gcEnvironment
      ensures gcMessagingDeplId == id.gcMessagingDeplId && openActionName == id.openActionName
      ensures sfWmUrl == id.sfWmUrl && sfOrgId == id.sfOrgId && sfWmName == id.sfWmName
    {
      configName, gcDomain, gcEnvironment, gcMessagingDeplId := id.configName, id.gcDomain, id.gcEnvironment, id.gcMessagingDeplId;
      openActionName, sfWmUrl, sfOrgId, sfWmName := id.openActionName, id.sfWmUrl, id.sfOrgId, id.sfWmName;
    }

    /** Writes the six sections. */
    method SetTracking(tr: Tracking)
      modifies this`pageviewConfig, this`formsTrackConfig
      modifies this`clickEventsConfig, this`idleEventsConfig, this`inViewportConfig, this`scrollDepthConfig
      ensures pageviewConfig == tr.pageviewConfig && formsTrackConfig == tr.formsTrackConfig
      ensures clickEventsConfig == tr.clickEventsConfig && idleEventsConfig == tr.idleEventsConfig
      ensures inViewportConfig == tr.inViewportConfig && scrollDepthConfig == tr.scrollDepthConfig
    {
      pageviewConfig, formsTrackConfig := tr.pageviewConfig, tr.formsTrackConfig;
      clickEventsConfig, idleEventsConfig, inViewportConfig, scrollDepthConfig := tr.clickEventsConfig, tr.idleEventsConfig, tr.inViewportConfig, tr.scrollDepthConfig;
    }

    /** Writes the view flags. */
    method SetView(v: ViewFlags)
      modifies this`showInitialChoice, this`showExistingConfigDropdown, this`showConfigForm
      modifies this`selectedConfigAction, this`selectedExistingConfig, this`isEditMode, this`gcEnvironmentDisabled
      ensures showInitialChoice == v.showInitialChoice && showExistingConfigDropdown == v.showExistingConfigDropdown
      ensures showConfigForm == v.showConfigForm && selectedConfigAction == v.selectedConfigAction
      ensures selectedExistingConfig == v.selectedExistingConfig && isEditMode == v.isEditMode
      ensures gcEnvironmentDisabled == v.gcEnvironmentDisabled
    {
      showInitialChoice, showExistingConfigDropdown, showConfigForm := v.showInitialChoice, v.showExistingConfigDropdown, v.showConfigForm;
      selectedConfigAction, selectedExistingConfig := v.selectedConfigAction, v.selectedExistingConfig;
      isEditMode, gcEnvironmentDisabled := v.isEditMode, v.gcEnvironmentDisabled;
    }

    function Section(kind: SectionKind): ListSection
      reads this
    {
      SectionIn(State().tr, kind)
    }

    /** Replaces the item list of `kind`. */
    method SetItems(kind: SectionKind, items: seq<TrackedItem>)
      modifies this
      ensures State() == WithItems(old(State()), kind, items)
    {
      match kind
      case Click => clickEventsConfig := clickEventsConfig.(items := items);
      case Idle => idleEventsConfig := idleEventsConfig.(items := items);
      case Viewport => inViewportConfig := inViewportConfig.(items := items);
      case Scroll => scrollDepthConfig := scrollDepthConfig.(items := items);
    }

    /** `handleConfigActionChange`: `create` opens a blank form, `edit` opens
        the list of saved configurations; any choice leaves the start view. */
    method HandleConfigActionChange(action: string)
      modifies this
      ensures action == "create" ==> State() == Reset(old(State())).(view := old(State()).view.(selectedConfigAction := action,
        showExistingConfigDropdown := false, showConfigForm := true, isEditMode := false, showInitialChoice := false))
      ensures action == "edit" ==> State() == old(State()).(view := old(State()).view.(selectedConfigAction := action,
        showExistingConfigDropdown := true, showConfigForm := false, isEditMode := true, showInitialChoice := false))
      ensures action != "create" && action != "edit" ==>
        State() == old(State()).(view := old(State()).view.(selectedConfigAction := action, showInitialChoice := false))
    {
      var view := State().view.(selectedConfigAction := action, showInitialChoice := false);
      if action == "create" {
        SetView(view.(showExistingConfigDropdown := false, showConfigForm := true, isEditMode := false));
        ResetForm();
      } else if action == "edit" {
        SetView(view.(showExistingConfigDropdown := true, showConfigForm := false, isEditMode := true));
      } else {
        SetView(view);
      }
    }

    /** `handleExistingConfigChange`: remembers the id and asks for its record. */
    method HandleExistingConfigChange(configId: string)
      modifies this
      ensures State() == old(State()).(view := old(State()).view.(selectedExistingConfig := configId),
        io := old(State()).io.(detailRequests := old(detailRequests) + [configId]))
    {
      selectedExistingConfig := configId;
      detailRequests := detailRequests + [configId];
    }

    /** The `getConfigDetails` call settles: the record fills the form (all
        but the open-action name) and shows it, or an error toast is raised. */
    method OnExistingConfigLoaded(result: Result<GPEConfig, string>)
      modifies this
      ensures result.Err? ==> State() == old(State()).(io := old(State()).io.(toasts := old(toasts) + [Toast("Error", "Failed to load existing configuration", "error")]))
      ensures result.Ok? ==> State() == Loaded(old(State()), result.value)
    {
      match result
      case Err(_) =>
        toasts := toasts + [Toast("Error", "Failed to load existing configuration", "error")];
      case Ok(c) =>
        LoadRecord(c);
    }

    /** The success path of `loadExistingConfig`. */
    method LoadRecord(c: GPEConfig)
      modifies this
      ensures State() == Loaded(old(State()), c)
    {
      ghost var st := State();
      var id := LoadedIdentity(State().id, c);
      SetIdentity(id);
      assert State() == st.(id := id);
      SetTracking(TrackingOf(c));
      assert State() == st.(id := id, tr := TrackingOf(c));
      showConfigForm := true;
    }

    /** `returnToStart`: the start view with a blank form. */
    method ReturnToStart()
      modifies this
      ensures State() == AtStart(old(State()))
    {
      SetView(StartView.(gcEnvironmentDisabled := gcEnvironmentDisabled));
      ResetForm();
    }

    /** `resetForm`. */
    method ResetForm()
      modifies this
      ensures State() == Reset(old(State()))
    {
      SetIdentity(BlankIdentity);
      SetTracking(BlankTracking);
    }

    /** `handleConfigNameChange`, `handleInputChange`, `handleGCEnvironmentChange`
        and `handleOpenActionNameChange`: one text field takes the value. */
    method HandleInputChange(field: TextField, value: string)
      modifies this
      ensures State() == old(State()).(id := WithText(old(State()).id, field, value))
    {
      SetIdentity(WithText(State().id, field, value));
    }

    /** `handleGCDomainChange`: the environment follows the domain, and the
        environment input is locked exactly when the domain is a listed one. */
    method HandleGCDomainChange(domain: string)
      modifies this
      ensures State() == old(State()).(id := old(State()).id.(gcDomain := domain, gcEnvironment := GetGCEnvironmentFromDomain(domain)),
        view := old(State()).view.(gcEnvironmentDisabled := GetGCEnvironmentFromDomain(domain) != ""))
      ensures gcEnvironmentDisabled <==> domain in DomainMapping
      ensures domain in DomainMapping ==> gcEnvironment == DomainMapping[domain]
    {
      EnvironmentKnownIffListed(domain);
      gcDomain := domain;
      gcEnvironment := GetGCEnvironmentFromDomain(domain);
      gcEnvironmentDisabled := gcEnvironment != "";
    }

    /** `handlePageviewChange`: checking capture-all also drops the title,
        the location and the custom attributes. */
    method HandlePageviewChange(edit: PageviewEdit)
      modifies this
      ensures State() == old(State()).(tr := old(State()).tr.(pageviewConfig := match edit
        case PageviewEnabled(b) => old(pageviewConfig).(enabled := b)
        case PageviewCaptureAll(b) =>
          if b then old(pageviewConfig).(captureAll := true, pageTitle := "", pageLocation := "", customAttributes := [])
          else old(pageviewConfig).(captureAll := false)
        case PageTitle(v) => old(pageviewConfig).(pageTitle := v)
        case PageLocation(v) => old(pageviewConfig).(pageLocation := v)))
    {
      match edit
      case PageviewEnabled(checked) =>
        pageviewConfig := pageviewConfig.(enabled := checked);
      case PageviewCaptureAll(checked) =>
        pageviewConfig := pageviewConfig.(captureAll := checked);
        if checked {
          pageviewConfig := pageviewConfig.(pageTitle := "", pageLocation := "", customAttributes := []);
        }
      case PageTitle(v) =>
        pageviewConfig := pageviewConfig.(pageTitle := v);
      case PageLocation(v) =>
        pageviewConfig := pageviewConfig.(pageLocation := v);
    }

    /** `addPageviewCustomAttribute`. */
    method AddPageviewCustomAttribute()
      modifies this
      ensures State() == old(State()).(tr := old(State()).tr.(pageviewConfig :=
        old(pageviewConfig).(customAttributes := old(pageviewConfig.customAttributes) + [BlankAttribute])))
    {
      pageviewConfig := pageviewConfig.(customAttributes := pageviewConfig.customAttributes + [BlankAttribute]);
    }

    /** `handlePageviewCustomAttributeChange`. */
    method HandlePageviewCustomAttributeChange(index: nat, field: AttributeField, value: string)
      modifies this
      ensures State() == old(State()).(tr := old(State()).tr.(pageviewConfig := old(pageviewConfig).(customAttributes :=
        ChangeAttribute(old(pageviewConfig.customAttributes), index, field, value))))
    {
      pageviewConfig := pageviewConfig.(customAttributes := ChangeAttribute(pageviewConfig.customAttributes, index, field, value));
    }

    /** `removePageviewCustomAttribute`. */
    method RemovePageviewCustomAttribute(index: nat)
      modifies this
      ensures State() == old(State()).(tr := old(State()).tr.(pageviewConfig := old(pageviewConfig).(customAttributes :=
        RemoveAt(old(pageviewConfig.customAttributes), index))))
    {
      pageviewConfig := pageviewConfig.(customAttributes := RemoveAt(pageviewConfig.customAttributes, index));
    }

    /** `handleFormsTrackChange`: one member of the forms section; no clean-up. */
    method HandleFormsTrackChange(edit: FormsEdit)
      modifies this
      ensures State() == old(State()).(tr := old(State()).tr.(formsTrackConfig := match edit
        case FormsEnabled(b) => old(formsTrackConfig).(enabled := b)
        case FormsCaptureAll(b) => old(formsTrackConfig).(captureAll := b)
        case CaptureOnAbandon(b) => old(formsTrackConfig).(captureFormDataOnAbandon := b)
        case CaptureOnSubmit(b) => old(formsTrackConfig).(captureFormDataOnSubmit := b)
        case FormSelector(v) => old(formsTrackConfig).(selector := v)
        case FormName(v) => old(formsTrackConfig).(formName := v)))
    {
      match edit
      case FormsEnabled(b) => formsTrackConfig := formsTrackConfig.(enabled := b);
      case FormsCaptureAll(b) => formsTrackConfig := formsTrackConfig.(captureAll := b);
      case CaptureOnAbandon(b) => formsTrackConfig := formsTrackConfig.(captureFormDataOnAbandon := b);
      case CaptureOnSubmit(b) => formsTrackConfig := formsTrackConfig.(captureFormDataOnSubmit := b);
      case FormSelector(v) => formsTrackConfig := formsTrackConfig.(selector := v);
      case FormName(v) => formsTrackConfig := formsTrackConfig.(formName := v);
    }

    /** `addFormsCustomAttribute`: the section has no attribute list unless a
        loaded record brought one; without it the push throws and nothing changes. */
    method AddFormsCustomAttribute()
      modifies this
      ensures old(formsTrackConfig.customAttributes).None? ==> State() == old(State())
      ensures old(formsTrackConfig.customAttributes).Some? ==> State() == old(State()).(tr := old(State()).tr.(formsTrackConfig :=
        old(formsTrackConfig).(customAttributes := Some(old(formsTrackConfig.customAttributes).value + [BlankAttribute]))))
    {
      if formsTrackConfig.customAttributes.Some? {
        formsTrackConfig := formsTrackConfig.(customAttributes := Some(formsTrackConfig.customAttributes.value + [BlankAttribute]));
      }
    }

    /** `handleFormsCustomAttributeChange`; throws, changing nothing, without a list. */
    method HandleFormsCustomAttributeChange(index: nat, field: AttributeField, value: string)
      modifies this
      ensures old(formsTrackConfig.customAttributes).None? ==> State() == old(State())
      ensures old(formsTrackConfig.customAttributes).Some? ==> State() == old(State()).(tr := old(State()).tr.(formsTrackConfig :=
        old(formsTrackConfig).(customAttributes := Some(ChangeAttribute(old(formsTrackConfig.customAttributes).value, index, field, value)))))
    {
      if formsTrackConfig.customAttributes.Some? {
        formsTrackConfig := formsTrackConfig.(customAttributes := Some(ChangeAttribute(formsTrackConfig.customAttributes.value, index, field, value)));
      }
    }

    /** `removeFormsCustomAttribute`; throws, changing nothing, without a list. */
    method RemoveFormsCustomAttribute(index: nat)
      modifies this
      ensures old(formsTrackConfig.customAttributes).None? ==> State() == old(State())
      ensures old(formsTrackConfig.customAttributes).Some? ==> State() == old(State()).(tr := old(State()).tr.(formsTrackConfig :=
        old(formsTrackConfig).(customAttributes := Some(RemoveAt(old(formsTrackConfig.customAttributes).value, index)))))
    {
      if formsTrackConfig.customAttributes.Some? {
        formsTrackConfig := formsTrackConfig.(customAttributes := Some(RemoveAt(formsTrackConfig.customAttributes.value, index)));
      }
    }

    /** `handleClickEventsChange` and its three siblings: only the `enabled`
        input has an effect. */
    method HandleSectionChange(kind: SectionKind, field: string, checked: bool)
      modifies this
      ensures field == "enabled" ==> State() == old(State()).(tr := WithSection(old(State()).tr, kind, old(Section(kind)).(enabled := checked)))
      ensures field != "enabled" ==> State() == old(State())
    {
      if field == "enabled" {
        match kind
        case Click => clickEventsConfig := clickEventsConfig.(enabled := checked);
        case Idle => idleEventsConfig := idleEventsConfig.(enabled := checked);
        case Viewport => inViewportConfig := inViewportConfig.(enabled := checked);
        case Scroll => scrollDepthConfig := scrollDepthConfig.(enabled := checked);
      }
    }

    /** `addClickEvent`, `addIdleEvent`, `addInViewportEvent`, `addScrollDepthEvent`. */
    method AddTrackedItem(kind: SectionKind)
      modifies this
      ensures State() == WithItems(old(State()), kind, old(Section(kind)).items + [NewItem(kind)])
    {
      SetItems(kind, Section(kind).items + [NewItem(kind)]);
    }

    /** `handleClickEventChange` and its three siblings. */
    method HandleTrackedItemChange(kind: SectionKind, index: nat, edit: ItemEdit)
      modifies this
      ensures State() == WithItems(old(State()), kind, EditItem(kind, old(Section(kind)).items, index, edit))
    {
      SetItems(kind, EditItem(kind, Section(kind).items, index, edit));
    }

    /** `removeIdleEvent`, `removeInViewportEvent`, `removeScrollDepthEvent`:
        the editor offers no removal of click items. */
    method RemoveTrackedItem(kind: SectionKind, index: nat)
      requires kind != Click
      modifies this
      ensures State() == WithItems(old(State()), kind, RemoveAt(old(Section(kind)).items, index))
    {
      SetItems(kind, RemoveAt(Section(kind).items, index));
    }

    /** `add*EventCustomAttribute`: one blank attribute on the item at `index`;
        a missing item throws and nothing changes. */
    method AddItemAttribute(kind: SectionKind, index: nat)
      modifies this
      ensures var items := old(Section(kind)).items;
        State() == WithItems(old(State()), kind,
          if index < |items| then items[index := items[index].(customAttributes := items[index].customAttributes + [BlankAttribute])] else items)
    {
      var items := Section(kind).items;
      if index < |items| {
        SetItems(kind, items[index := items[index].(customAttributes := items[index].customAttributes + [BlankAttribute])]);
      }
    }

    /** `handle*EventCustomAttributeChange`; a missing item or attribute throws
        and nothing changes. */
    method HandleItemAttributeChange(kind: SectionKind, itemIndex: nat, attrIndex: nat, field: AttributeField, value: string)
      modifies this
      ensures var items := old(Section(kind)).items;
        State() == WithItems(old(State()), kind,
          if itemIndex < |items|
          then items[itemIndex := items[itemIndex].(customAttributes := ChangeAttribute(items[itemIndex].customAttributes, attrIndex, field, value))]
          else items)
    {
      var items := Section(kind).items;
      if itemIndex < |items| {
        SetItems(kind, items[itemIndex := items[itemIndex].(customAttributes := ChangeAttribute(items[itemIndex].customAttributes, attrIndex, field, value))]);
      }
    }

    /** `remove*EventCustomAttribute`: `splice` on the item's list; a missing
        item throws and nothing changes. */
    method RemoveItemAttribute(kind: SectionKind, itemIndex: nat, attrIndex: nat)
      modifies this
      ensures var items := old(Section(kind)).items;
        State() == WithItems(old(State()), kind,
          if itemIndex < |items|
          then items[itemIndex := items[itemIndex].(customAttributes := RemoveAt(items[itemIndex].customAttributes, attrIndex))]
          else items)
    {
      var items := Section(kind).items;
      if itemIndex < |items| {
        SetItems(kind, items[itemIndex := items[itemIndex].(customAttributes := RemoveAt(items[itemIndex].customAttributes, attrIndex))]);
      }
    }

    /** The list `validateMandatoryFields` builds, one `push` per empty field,
        in the fixed label order. */
    method MissingMandatoryFields() returns (missing: seq<string>)
      ensures missing == EmptyLabels(MandatoryFields(State().id, isEditMode))
      ensures missing == [] <==> AllFilled(State().id, isEditMode)
    {
      var fields := MandatoryFields(State().id, isEditMode);
      missing := [];
      var i := 0;
      while i < |fields|
        invariant 0 <= i <= |fields|
        invariant missing == EmptyLabels(fields[..i])
      {
        EmptyLabelsAppend(fields[..i], [fields[i]]);
        assert fields[..i + 1] == fields[..i] + [fields[i]];
        if fields[i].1 == "" {
          missing := missing + [fields[i].0];
        }
        i := i + 1;
      }
      assert fields[..i] == fields;
      MandatoryOkIffFilled(State().id, isEditMode);
    }

    /** `validateMandatoryFields`: true when nothing is missing; otherwise one
        error toast naming the missing fields. */
    method ValidateMandatoryFields() returns (valid: bool)
      modifies this
      ensures valid <==> MandatoryOk(old(State()))
      ensures valid ==> State() == old(State())
      ensures !valid ==> State() == old(State()).(io := old(State()).io.(toasts :=
        old(toasts) + [MissingFieldsToast(EmptyLabels(MandatoryFields(old(State()).id, old(isEditMode))))]))
    {
      var missing := MissingMandatoryFields();
      if |missing| > 0 {
        toasts := toasts + [MissingFieldsToast(missing)];
        return false;
      }
      return true;
    }

    /** `cleanUpConfigurations`. */
    method CleanUpConfigurations()
      modifies this
      ensures State() == old(State()).(tr := CleanedUp(old(State()).tr))
    {
      if pageviewConfig.captureAll {
        pageviewConfig := pageviewConfig.(pageTitle := "", pageLocation := "");
      }
      if formsTrackConfig.captureAll {
        formsTrackConfig := formsTrackConfig.(selector := "", formName := "");
      }
    }

    /** One `forEach` pass of `saveConfiguration`, rewriting each item's
        event name in place. */
    method RecomputeEventNames(kind: SectionKind)
      modifies this
      ensures State() == WithItems(old(State()), kind, Recomputed(kind, old(Section(kind)).items))
      ensures EventNamesDerived(kind, Section(kind).items)
    {
      var items := Section(kind).items;
      ghost var original := items;
      var i := 0;
      while i < |items|
        invariant 0 <= i <= |items| && |items| == |original|
        invariant forall j :: 0 <= j < i ==> items[j] == original[j].(eventName := DerivedEventName(kind, original[j]))
        invariant forall j :: i <= j < |items| ==> items[j] == original[j]
      {
        items := items[i := items[i].(eventName := DerivedEventName(kind, items[i]))];
        i := i + 1;
      }
      assert items == Recomputed(kind, original);
      RecomputedDerived(kind, original);
      SetItems(kind, items);
    }

    /** `saveConfiguration` up to the server call: a failed validation only
        raises its toast; otherwise the record is cleaned up, its event names
        recomputed, and one save call issued. */
    method SaveConfiguration()
      modifies this
      ensures !MandatoryOk(old(State())) ==> State() == old(State()).(io := old(State()).io.(toasts :=
        old(toasts) + [MissingFieldsToast(EmptyLabels(MandatoryFields(old(State()).id, old(isEditMode))))]))
      ensures MandatoryOk(old(State())) ==> State() == AfterSave(old(State()))
    {
      var valid := ValidateMandatoryFields();
      if !valid {
        return;
      }
      ghost var st := State();
      CleanUpConfigurations();
      RecomputeEventNames(Click);
      RecomputeEventNames(Viewport);
      RecomputeEventNames(Idle);
      RecomputeEventNames(Scroll);
      assert State().tr == RecomputeAll(CleanedUp(st.tr));
      var configId := if isEditMode then Some(selectedExistingConfig) else None;
      saveCalls := saveCalls + [SaveCall(Payload(State().id, State().tr, isEditMode), configId)];
    }

    /** The `saveGPEConfig` call settles: success toasts and returns to the
        start view; failure toasts the error's message (`undefined` when it
        has none). */
    method OnSaveResult(result: Result<string, Option<string>>)
      modifies this
      ensures result.Ok? ==> State() == AtStart(old(State())).(io := old(State()).io.(toasts :=
        old(toasts) + [Toast("Success", "GPE Configuration saved successfully", "success")]))
      ensures result.Err? ==> State() == old(State()).(io := old(State()).io.(toasts := old(toasts) + [Toast("Error",
        "Failed to save GPE Configuration: " + (if result.error.Some? then result.error.value else "undefined"), "error")]))
    {
      match result
      case Ok(_) =>
        toasts := toasts + [Toast("Success", "GPE Configuration saved successfully", "success")];
        ReturnToStart();
      case Err(msg) =>
        toasts := toasts + [Toast("Error", "Failed to save GPE Configuration: " + (if msg.Some? then msg.value else "undefined"), "error")];
    }
  }

  /** Leaving for the start view always lands on the start flags and a blank
      form, whatever the editor held. */
  lemma ReturnToStartRestoresStart(st: EditorState)
    ensures AtStart(st).view.(gcEnvironmentDisabled := false) == InitialState.view
    ensures AtStart(st).id == InitialState.id
    ensures AtStart(st).tr == InitialState.tr.(formsTrackConfig := InitialState.tr.formsTrackConfig.(selector := ""))
    ensures AtStart(st).io == st.io
  {
  }
}
