/** The tracking configuration as the editor builds it, saves it and the
    runtime component reads it back: six tracker sections plus the identity
    of the Genesys Cloud deployment and of the Salesforce messaging widget. */
module ConfigModel {
  import opened Common

  /** One `{ name, value, traitName }` row of a section's custom attributes
      (the `id: Date.now()` key is not modelled). */
  datatype CustomAttribute = CustomAttribute(name: string, value: string, traitName: string)

  datatype PageviewConfig = PageviewConfig(
    enabled: bool,
    captureAll: bool,
    pageTitle: string,
    pageLocation: string,
    customAttributes: seq<CustomAttribute>)

  /** The forms section. Neither the field initialiser nor `resetForm`
      gives it a `customAttributes` array, so that member is optional. */
  datatype FormsTrackConfig = FormsTrackConfig(
    enabled: bool,
    captureAll: bool,
    selector: string,
    formName: string,
    captureFormDataOnAbandon: bool,
    captureFormDataOnSubmit: bool,
    customAttributes: Option<seq<CustomAttribute>>)

  /** The four list-based sections. */
  datatype SectionKind = Click | Idle | Viewport | Scroll

  /** What a tracked item watches: a CSS selector (click, viewport), an idle
      threshold in seconds, or a scroll percentage. */
  datatype ItemKey = Selector(selector: string) | IdleAfterSeconds(seconds: int) | Percentage(percent: int)

  /** One tracked item; `eventNameSuffix` is absent until the operator types one. */
  datatype TrackedItem = TrackedItem(
    key: ItemKey,
    eventNameSuffix: Option<string>,
    eventName: string,
    customAttributes: seq<CustomAttribute>)

  datatype ListSection = ListSection(enabled: bool, items: seq<TrackedItem>)

  /** A whole configuration record. `openActionName` is the member the editor
      writes; `gcOpenActionName` is the member the runtime reads. */
  datatype GPEConfig = GPEConfig(
    configName: string,
    gcDomain: string,
    gcEnvironment: string,
    gcMessagingDeplId: string,
    sfWmUrl: string,
    sfOrgId: string,
    sfWmName: string,
    pageviewConfig: PageviewConfig,
    formsTrackConfig: FormsTrackConfig,
    clickEventsConfig: ListSection,
    idleEventsConfig: ListSection,
    inViewportConfig: ListSection,
    scrollDepthConfig: ListSection,
    openActionName: Option<string>,
    gcOpenActionName: Option<string>)

  /** The event-name prefix of each list section. */
  function Prefix(kind: SectionKind): string
  {
    match kind
    case Click => "click_"
    case Idle => "idle_"
    case Viewport => "viewport_"
    case Scroll => "scroll_"
  }

  /** The key an item of this section carries. */
  predicate KeyFits(kind: SectionKind, key: ItemKey)
  {
    match kind
    case Click => key.Selector?
    case Viewport => key.Selector?
    case Idle => key.IdleAfterSeconds?
    case Scroll => key.Percentage?
  }

  /** The event name an item should carry: prefix followed by the suffix,
      or by nothing when no suffix was entered. */
  function DerivedEventName(kind: SectionKind, item: TrackedItem): string
  {
    Prefix(kind) + OrEmpty(item.eventNameSuffix)
  }

  /** Every item's `eventName` is derived from its suffix. */
  ghost predicate EventNamesDerived(kind: SectionKind, items: seq<TrackedItem>)
  {
    forall i :: 0 <= i < |items| ==> items[i].eventName == DerivedEventName(kind, items[i])
  }

  /** The list section of a configuration that holds items of `kind`. */
  function SectionOf(cfg: GPEConfig, kind: SectionKind): ListSection
  {
    match kind
    case Click => cfg.clickEventsConfig
    case Idle => cfg.idleEventsConfig
    case Viewport => cfg.inViewportConfig
    case Scroll => cfg.scrollDepthConfig
  }
}
