/** The session timeline shown beside a messaging session
    (`genesysCustomerJourney.js`): per-event icon and short type, the
    per-name tally behind the donut chart, the top-five page-view tally,
    the detail rows of each event, the distinct-page count and the
    minutes/seconds split of the session's length. */
module CustomerJourney {
  import opened Common

  /** One `Genesys_Session_Event__c` record as the server returns it; a field
      the record does not set is `None` (`undefined` in the source). */
  datatype SessionEvent = SessionEvent(
    id: string,
    eventName: Option<string>,
    eventType: Option<string>,
    idleDurationSeconds: Option<int>,
    clickedElementSelector: Option<string>,
    viewportElementSelector: Option<string>,
    formName: Option<string>,
    formData: Option<string>,
    pageTitle: Option<string>,
    pageUrl: Option<string>,
    scrollDepthPercentage: Option<int>,
    browserFamily: Option<string>,
    browserVersion: Option<string>,
    deviceCategory: Option<string>,
    osFamily: Option<string>,
    osVersion: Option<string>,
    countryName: Option<string>,
    regionName: Option<string>,
    locality: Option<string>)

  /** A JavaScript string value that is truthy: present and non-empty. */
  predicate Truthy(o: Option<string>)
  {
    o.Some? && o.value != ""
  }

  /** `o || d` on an optional string. */
  function OrElse(o: Option<string>, d: string): (r: string)
    ensures Truthy(o) ==> r == o.value
    ensures !Truthy(o) ==> r == d
    ensures d != "" ==> r != ""
  {
    if Truthy(o) then o.value else d
  }

  /** `n || 0` on an optional number. */
  function NumberOrZero(o: Option<int>): int
  {
    if o.Some? then o.value else 0
  }

  const JourneyPrefix := "com.genesys.journey."
  const WebEventType := "com.genesys.journey.WebEvent"
  const WebActionEventType := "com.genesys.journey.WebActionEvent"
  const SegmentAssignmentType := "com.genesys.journey.SegmentAssignmentEvent"

  /** `getIconName`: a strict comparison against the three journey types. */
  function GetIconName(eventType: Option<string>): (icon: string)
  {
    if eventType == Some(WebEventType) then "standard:visit"
    else if eventType == Some(WebActionEventType) then "standard:action"
    else if eventType == Some(SegmentAssignmentType) then "standard:segment"
    else "standard:event"
  }

  /** `getShortEventType`: `replace` with a string pattern removes only the
      first occurrence of the journey prefix. */
  function GetShortEventType(eventType: string): (r: string)
    ensures !Includes(eventType, JourneyPrefix) ==> r == eventType
    ensures Includes(eventType, JourneyPrefix) ==> exists i :: (OccursAt(eventType, JourneyPrefix, i)
      && (forall j :: 0 <= j < i ==> !OccursAt(eventType, JourneyPrefix, j))
      && r == eventType[..i] + eventType[i + |JourneyPrefix|..])
  {
    match IndexOf(eventType, JourneyPrefix)
    case None => eventType
    case Some(i) => eventType[..i] + eventType[i + |JourneyPrefix|..]
  }

  /** A type that starts with the prefix loses exactly that prefix, even when
      the rest contains the prefix again. */
  lemma ShortEventTypeStripsPrefix(rest: string)
    ensures GetShortEventType(JourneyPrefix + rest) == rest
  {
    var s := JourneyPrefix + rest;
    assert s[0..|JourneyPrefix|] == JourneyPrefix;
    assert OccursAt(s, JourneyPrefix, 0);
  }

  /** The three known types get their own icons; every other type, and a
      missing one, gets the generic icon. */
  lemma IconsOfJourneyTypes(eventType: Option<string>)
    ensures GetIconName(Some(WebEventType)) == "standard:visit"
    ensures GetIconName(Some(WebActionEventType)) == "standard:action"
    ensures GetIconName(Some(SegmentAssignmentType)) == "standard:segment"
    ensures GetIconName(eventType) == "standard:event" <==>
      eventType != Some(WebEventType) && eventType != Some(WebActionEventType) && eventType != Some(SegmentAssignmentType)
  {
    assert WebEventType != WebActionEventType by { assert |WebEventType| != |WebActionEventType|; }
    assert WebEventType != SegmentAssignmentType by { assert |WebEventType| != |SegmentAssignmentType|; }
    assert WebActionEventType != SegmentAssignmentType by { assert |WebActionEventType| != |SegmentAssignmentType|; }
  }

  const Colors: seq<string> := ["#1589EE", "#FF9A3C", "#4BCE97", "#F2B2A8", "#7F8DE1"]

  /** `getColor`: the palette, cycled. */
  function GetColor(index: nat): (c: string)
    ensures c in Colors
  {
    Colors[index % |Colors|]
  }

  /** Entries five apart share a colour; any five consecutive entries have
      five different colours. */
  lemma ColorCycle(i: nat)
    ensures GetColor(i + 5) == GetColor(i)
    ensures forall j, k :: i <= j < k < i + 5 ==> GetColor(j) != GetColor(k)
  {
    forall j, k | i <= j < k < i + 5 ensures GetColor(j) != GetColor(k) {
      assert j % 5 != k % 5;
    }
  }

  // ---------------------------------------------------------------------
  // Detail rows

  /** Lower-casing, restricted to ASCII letters. */
  function LowerChar(c: char): char
  {
    if 'A' <= c <= 'Z' then (c as int + 32) as char else c
  }

  function LowerAscii(s: string): (r: string)
    ensures |r| == |s|
  {
    seq(|s|, i requires 0 <= i < |s| => LowerChar(s[i]))
  }

  /** What an event is shown as. */
  datatype Category = IdleCategory | ClickCategory | ViewportCategory | FormCategory
                    | PageCategory | ScrollCategory | SegmentCategory

  /** The name keywords, in the order they are tried. */
  const Keywords: seq<string> := ["idle", "click", "viewport", "form", "page", "scroll"]

  function KeywordCategory(k: nat): Category
    requires k < |Keywords|
  {
    [IdleCategory, ClickCategory, ViewportCategory, FormCategory, PageCategory, ScrollCategory][k]
  }

  /** The lower-cased event name the keywords are searched in. */
  function SearchName(ev: SessionEvent): string
  {
    LowerAscii(OrEmpty(ev.eventName))
  }

  /** The `if … else if` chain of `getEventDetails`. */
  function Classify(ev: SessionEvent): Option<Category>
  {
    var name := SearchName(ev);
    if Contains(name, "idle") then Some(IdleCategory)
    else if Contains(name, "click") then Some(ClickCategory)
    else if Contains(name, "viewport") then Some(ViewportCategory)
    else if Contains(name, "form") then Some(FormCategory)
    else if Contains(name, "page") then Some(PageCategory)
    else if Contains(name, "scroll") then Some(ScrollCategory)
    else if OrEmpty(ev.eventType) == SegmentAssignmentType then Some(SegmentCategory)
    else None
  }

  /** The keyword tests of `Classify`, restated against `Keywords`. */
  lemma KeywordHits(name: string)
    ensures Contains(name, "idle") == Includes(name, Keywords[0])
    ensures Contains(name, "click") == Includes(name, Keywords[1])
    ensures Contains(name, "viewport") == Includes(name, Keywords[2])
    ensures Contains(name, "form") == Includes(name, Keywords[3])
    ensures Contains(name, "page") == Includes(name, Keywords[4])
    ensures Contains(name, "scroll") == Includes(name, Keywords[5])
  {
  }

  /** A keyword decides the category exactly when the name contains it and
      contains none of the keywords tried before it. */
  lemma ClassifyFirstKeyword(ev: SessionEvent, k: nat)
    requires k < |Keywords|
    ensures Classify(ev) == Some(KeywordCategory(k)) <==>
      Includes(SearchName(ev), Keywords[k]) && forall j :: 0 <= j < k ==> !Includes(SearchName(ev), Keywords[j])
  {
    KeywordHits(SearchName(ev));
  }

  /** The segment rule applies only when no keyword matches; an event that
      matches nothing is not shown. */
  lemma ClassifyFallback(ev: SessionEvent)
    ensures Classify(ev) == Some(SegmentCategory) <==>
      (forall j :: 0 <= j < |Keywords| ==> !Includes(SearchName(ev), Keywords[j]))
      && OrEmpty(ev.eventType) == SegmentAssignmentType
    ensures Classify(ev).None? <==>
      (forall j :: 0 <= j < |Keywords| ==> !Includes(SearchName(ev), Keywords[j]))
      && OrEmpty(ev.eventType) != SegmentAssignmentType
  {
    KeywordHits(SearchName(ev));
  }

  /** The value shown on a detail row. */
  datatype DetailValue =
    | EventNameValue(name: Option<string>, recordId: string)
    | TextValue(text: string)
    | SecondsValue(seconds: int)
    | PercentValue(percent: int)
    | UrlValue(text: string, url: Option<string>)

  datatype DetailRow = DetailRow(title: string, value: DetailValue, icon: string)

  /** The rows a category adds after the event name. */
  function CategoryRows(ev: SessionEvent, c: Category): (rows: seq<DetailRow>)
    ensures 1 <= |rows| <= 2
  {
    match c
    case IdleCategory => [DetailRow("Idle Duration", SecondsValue(NumberOrZero(ev.idleDurationSeconds)), "utility:clock")]
    case ClickCategory => [DetailRow("Clicked Element", TextValue(OrElse(ev.clickedElementSelector, "N/A")), "utility:touch_action")]
    case ViewportCategory => [DetailRow("Viewport Element", TextValue(OrElse(ev.viewportElementSelector, "N/A")), "utility:preview")]
    case FormCategory => [DetailRow("Form Name", TextValue(OrElse(ev.formName, "N/A")), "utility:form"),
                          DetailRow("Form Data", TextValue(OrElse(ev.formData, "N/A")), "utility:database")]
    case PageCategory => [DetailRow("Page Title", TextValue(OrElse(ev.pageTitle, "N/A")), "utility:page"),
                          DetailRow("Page URL", UrlValue(OrElse(ev.pageUrl, "N/A"), ev.pageUrl), "utility:link")]
    case ScrollCategory => [DetailRow("Scroll Depth", PercentValue(NumberOrZero(ev.scrollDepthPercentage)), "utility:vertical_alignment_bottom")]
    case SegmentCategory => [DetailRow("Event Type", TextValue("Segment assignment"), "utility:strategy")]
  }

  /** The browser, device and location rows, each present when its leading
      field is set. */
  function CommonRows(ev: SessionEvent): seq<DetailRow>
  {
    (if Truthy(ev.browserFamily)
     then [DetailRow("Browser", TextValue(ev.browserFamily.value + " " + OrEmpty(ev.browserVersion)), "utility:desktop")]
     else [])
    + (if Truthy(ev.deviceCategory)
       then [DetailRow("Device", TextValue(ev.deviceCategory.value + " (" + OrEmpty(ev.osFamily) + " " + OrEmpty(ev.osVersion) + ")"), "utility:tablet_portrait")]
       else [])
    + (if Truthy(ev.countryName)
       then [DetailRow("Location", TextValue(ev.countryName.value + ", " + OrEmpty(ev.regionName) + ", " + OrEmpty(ev.locality)), "utility:location")]
       else [])
  }

  /** `getEventDetails`: nothing for a missing event or one no rule matches;
      otherwise the event-name row, the category's rows, then the common rows. */
  function GetEventDetails(ev: Option<SessionEvent>): (r: Option<seq<DetailRow>>)
    ensures r.Some? <==> ev.Some? && Classify(ev.value).Some?
    ensures r.Some? ==> (|r.value| >= 2
      && r.value[0] == DetailRow("Event Name", EventNameValue(ev.value.eventName, ev.value.id), "utility:link"))
  {
    if ev.None? then None
    else match Classify(ev.value)
      case None => None
      case Some(c) =>
        Some([DetailRow("Event Name", EventNameValue(ev.value.eventName, ev.value.id), "utility:link")]
             + CategoryRows(ev.value, c) + CommonRows(ev.value))
  }

  function Labels(rows: seq<DetailRow>): seq<string>
  {
    seq(|rows|, i requires 0 <= i < |rows| => rows[i].title)
  }

  /** The labels a category contributes. */
  function CategoryLabels(c: Category): seq<string>
  {
    match c
    case IdleCategory => ["Idle Duration"]
    case ClickCategory => ["Clicked Element"]
    case ViewportCategory => ["Viewport Element"]
    case FormCategory => ["Form Name", "Form Data"]
    case PageCategory => ["Page Title", "Page URL"]
    case ScrollCategory => ["Scroll Depth"]
    case SegmentCategory => ["Event Type"]
  }

  lemma LabelsConcat(a: seq<DetailRow>, b: seq<DetailRow>)
    ensures Labels(a + b) == Labels(a) + Labels(b)
  {
  }

  lemma CategoryRowLabels(ev: SessionEvent, c: Category)
    ensures Labels(CategoryRows(ev, c)) == CategoryLabels(c)
  {
  }

  lemma CommonRowLabels(ev: SessionEvent)
    ensures Labels(CommonRows(ev)) ==
      (if Truthy(ev.browserFamily) then ["Browser"] else [])
      + (if Truthy(ev.deviceCategory) then ["Device"] else [])
      + (if Truthy(ev.countryName) then ["Location"] else [])
  {
    var browser := if Truthy(ev.browserFamily)
      then [DetailRow("Browser", TextValue(ev.browserFamily.value + " " + OrEmpty(ev.browserVersion)), "utility:desktop")] else [];
    var device := if Truthy(ev.deviceCategory)
      then [DetailRow("Device", TextValue(ev.deviceCategory.value + " (" + OrEmpty(ev.osFamily) + " " + OrEmpty(ev.osVersion) + ")"), "utility:tablet_portrait")] else [];
    var location := if Truthy(ev.countryName)
      then [DetailRow("Location", TextValue(ev.countryName.value + ", " + OrEmpty(ev.regionName) + ", " + OrEmpty(ev.locality)), "utility:location")] else [];
    assert CommonRows(ev) == browser + device + location;
    LabelsConcat(browser + device, location);
    LabelsConcat(browser, device);
  }

  /** The labels of a shown event: event name, the category's labels, then
      Browser, Device and Location, in that order, each exactly when its
      field is set. */
  lemma EventDetailsLabels(ev: SessionEvent, c: Category)
    requires Classify(ev) == Some(c)
    ensures Labels(GetEventDetails(Some(ev)).value) ==
      ["Event Name"] + CategoryLabels(c)
      + (if Truthy(ev.browserFamily) then ["Browser"] else [])
      + (if Truthy(ev.deviceCategory) then ["Device"] else [])
      + (if Truthy(ev.countryName) then ["Location"] else [])
  {
    var first := [DetailRow("Event Name", EventNameValue(ev.eventName, ev.id), "utility:link")];
    assert GetEventDetails(Some(ev)).value == first + CategoryRows(ev, c) + CommonRows(ev);
    LabelsConcat(first + CategoryRows(ev, c), CommonRows(ev));
    LabelsConcat(first, CategoryRows(ev, c));
    CategoryRowLabels(ev, c);
    CommonRowLabels(ev);
  }

  /** One entry of `formattedEvents`. */
  datatype FormattedEvent = FormattedEvent(event: SessionEvent, details: seq<DetailRow>)

  /** `formattedEvents`: the events that have details, in order. */
  function FormattedEvents(events: seq<SessionEvent>): (r: seq<FormattedEvent>)
    ensures |r| <= |events|
    ensures forall i :: 0 <= i < |r| ==> r[i].event in events && GetEventDetails(Some(r[i].event)) == Some(r[i].details)
  {
    if events == [] then []
    else
      var rest := FormattedEvents(events[1..]);
      match GetEventDetails(Some(events[0]))
      case None => rest
      case Some(d) => [FormattedEvent(events[0], d)] + rest
  }

  /** One step of the filter: the first event is kept, in front, exactly
      when a rule matches it. */
  lemma FormattedEventsStep(events: seq<SessionEvent>)
    requires events != []
    ensures var r, rest := FormattedEvents(events), FormattedEvents(events[1..]);
      (Classify(events[0]).None? ==> r == rest)
      && (Classify(events[0]).Some? ==> |r| == |rest| + 1 && r[0].event == events[0] && r[1..] == rest)
  {
  }

  /** Exactly the events a rule matches survive the filter. */
  lemma {:induction false} FormattedEventsKeepsShown(events: seq<SessionEvent>)
    ensures forall e :: e in events && Classify(e).Some? ==>
      exists i :: 0 <= i < |FormattedEvents(events)| && FormattedEvents(events)[i].event == e
    ensures FormattedEvents(events) == [] <==> forall e :: e in events ==> Classify(e).None?
  {
    if events != [] {
      FormattedEventsKeepsShown(events[1..]);
      FormattedEventsStep(events);
      var r := FormattedEvents(events);
      var rest := FormattedEvents(events[1..]);
      forall e | e in events && Classify(e).Some?
        ensures exists i :: 0 <= i < |r| && r[i].event == e
      {
        if e == events[0] {
          assert r[0].event == e;
        } else {
          assert e in events[1..];
          var i :| 0 <= i < |rest| && rest[i].event == e;
          if Classify(events[0]).Some? {
            assert r[i + 1] == rest[i];
          } else {
            assert r[i].event == e;
          }
        }
      }
    }
  }

  // ---------------------------------------------------------------------
  // Tallies

  predicate Distinct(s: seq<string>)
  {
    forall i, j :: 0 <= i < j < |s| ==> s[i] != s[j]
  }

  /** The distinct keys in order of first appearance: the order in which a
      JavaScript object receives them as new keys. */
  function Dedup(keys: seq<string>): (d: seq<string>)
    ensures forall k :: k in d <==> k in keys
    ensures Distinct(d)
  {
    if keys == [] then []
    else
      var d := Dedup(keys[..|keys| - 1]);
      var k := keys[|keys| - 1];
      assert forall x :: x in keys <==> x in keys[..|keys| - 1] || x == k by {
        assert keys == keys[..|keys| - 1] + [k];
      }
      if k in d then d else d + [k]
  }

  /** The sum of the counts of the listed keys. */
  function SumCounts(order: seq<string>, counts: map<string, int>): int
    requires forall k :: k in order ==> k in counts
  {
    if order == [] then 0 else counts[order[0]] + SumCounts(order[1..], counts)
  }

  lemma {:induction false} SumCountsAppend(order: seq<string>, counts: map<string, int>, k: string)
    requires forall x :: x in order ==> x in counts
    requires k in counts
    ensures SumCounts(order + [k], counts) == SumCounts(order, counts) + counts[k]
  {
    if order != [] {
      assert (order + [k])[1..] == order[1..] + [k];
      SumCountsAppend(order[1..], counts, k);
    }
  }

  lemma {:induction false} SumCountsUpdate(order: seq<string>, counts: map<string, int>, k: string, v: int)
    requires forall x :: x in order ==> x in counts
    requires Distinct(order)
    ensures k !in order ==> SumCounts(order, counts[k := v]) == SumCounts(order, counts)
    ensures k in order ==> SumCounts(order, counts[k := v]) == SumCounts(order, counts) - counts[k] + v
  {
    if order != [] {
      assert Distinct(order[1..]) by {
        forall i, j | 0 <= i < j < |order[1..]| ensures order[1..][i] != order[1..][j] {
          assert order[1..][i] == order[i + 1] && order[1..][j] == order[j + 1];
        }
      }
      SumCountsUpdate(order[1..], counts, k, v);
      if order[0] == k {
        assert k !in order[1..] by {
          forall j | 0 <= j < |order[1..]| ensures order[1..][j] != k {
            assert order[1..][j] == order[j + 1];
          }
        }
      }
    }
  }

  lemma DedupSnoc(keys: seq<string>, k: string)
    ensures Dedup(keys + [k]) == if k in Dedup(keys) then Dedup(keys) else Dedup(keys) + [k]
  {
    assert (keys + [k])[..|keys|] == keys;
  }

  /** What the tally holds after the keys `seen`. */
  ghost predicate TallyInv(seen: seq<string>, order: seq<string>, counts: map<string, int>)
  {
    order == Dedup(seen)
    && (forall k :: k in counts <==> k in order)
    && (forall k :: k in counts ==> counts[k] == multiset(seen)[k])
    && SumCounts(order, counts) == |seen|
  }

  lemma TallyFirstSeen(seen: seq<string>, order: seq<string>, counts: map<string, int>, k: string)
    requires TallyInv(seen, order, counts) && k !in counts
    ensures TallyInv(seen + [k], order + [k], counts[k := 1])
  {
    DedupSnoc(seen, k);
    SumCountsUpdate(order, counts, k, 1);
    SumCountsAppend(order, counts[k := 1], k);
  }

  lemma TallySeenAgain(seen: seq<string>, order: seq<string>, counts: map<string, int>, k: string)
    requires TallyInv(seen, order, counts) && k in counts
    ensures TallyInv(seen + [k], order, counts[k := counts[k] + 1])
  {
    DedupSnoc(seen, k);
    SumCountsUpdate(order, counts, k, counts[k] + 1);
  }

  /** The counting `forEach` of `processChartData` and `processPageViewData`:
      the keys in first-seen order and how often each occurs, with counts
      that add up to the number of keys. */
  method Tally(keys: seq<string>) returns (order: seq<string>, counts: map<string, int>)
    ensures order == Dedup(keys)
    ensures forall k :: k in counts <==> k in keys
    ensures forall k :: k in counts ==> counts[k] == multiset(keys)[k] > 0
    ensures SumCounts(order, counts) == |keys|
  {
    order := [];
    counts := map[];
    var i := 0;
    while i < |keys|
      invariant 0 <= i <= |keys|
      invariant TallyInv(keys[..i], order, counts)
    {
      var k := keys[i];
      assert keys[..i + 1] == keys[..i] + [k];
      if k in counts {
        TallySeenAgain(keys[..i], order, counts, k);
        counts := counts[k := counts[k] + 1];
      } else {
        TallyFirstSeen(keys[..i], order, counts, k);
        counts := counts[k := 1];
        order := order + [k];
      }
      i := i + 1;
    }
    assert keys[..i] == keys;
  }

  /** The key an event is tallied under in the chart: its name, or the text
      `undefined` when it has none. */
  function ChartKey(ev: SessionEvent): string
  {
    if ev.eventName.Some? then ev.eventName.value else "undefined"
  }

  function ChartKeys(events: seq<SessionEvent>): (keys: seq<string>)
    ensures |keys| == |events|
  {
    seq(|events|, i requires 0 <= i < |events| => ChartKey(events[i]))
  }

  /** One slice of the donut chart (its angle and percentage are not modelled). */
  datatype ChartEntry = ChartEntry(eventName: string, count: int, color: string)

  /** What `processChartData` should produce for a list of keys: one entry
      per distinct key, in first-seen order, with its number of occurrences
      and the palette colour of its position. */
  function ChartSpec(keys: seq<string>): seq<ChartEntry>
  {
    var d := Dedup(keys);
    seq(|d|, i requires 0 <= i < |d| => ChartEntry(d[i], multiset(keys)[d[i]], GetColor(i)))
  }

  function TotalCount(entries: seq<ChartEntry>): int
  {
    if entries == [] then 0 else entries[0].count + TotalCount(entries[1..])
  }

  lemma {:induction false} TotalCountIsSum(entries: seq<ChartEntry>, order: seq<string>, counts: map<string, int>)
    requires |entries| == |order| && (forall k :: k in order ==> k in counts)
    requires forall i :: 0 <= i < |order| ==> entries[i].count == counts[order[i]]
    ensures TotalCount(entries) == SumCounts(order, counts)
  {
    if entries != [] {
      TotalCountIsSum(entries[1..], order[1..], counts);
    }
  }

  /** The slices built from a tally of `keys` are the specified slices. */
  lemma TallyChartIsSpec(keys: seq<string>, order: seq<string>, counts: map<string, int>, chart: seq<ChartEntry>)
    requires order == Dedup(keys)
    requires forall k :: k in counts <==> k in keys
    requires forall k :: k in counts ==> counts[k] == multiset(keys)[k]
    requires |chart| == |order|
    requires forall i :: 0 <= i < |order| ==> chart[i] == ChartEntry(order[i], counts[order[i]], GetColor(i))
    ensures chart == ChartSpec(keys)
  {
    var spec := ChartSpec(keys);
    forall i | 0 <= i < |chart| ensures chart[i] == spec[i] {
      assert order[i] in keys;
    }
  }

  /** The specified chart has one slice per distinct event name, every slice
      counts at least one event, and every event's name has a slice. */
  lemma ChartSpecShape(events: seq<SessionEvent>)
    ensures var chart := ChartSpec(ChartKeys(events));
      (forall i :: 0 <= i < |chart| ==> chart[i].count > 0)
      && (forall i, j :: 0 <= i < j < |chart| ==> chart[i].eventName != chart[j].eventName)
      && (forall e :: e in events ==> exists i :: 0 <= i < |chart| && chart[i].eventName == ChartKey(e))
  {
    var keys := ChartKeys(events);
    var d := Dedup(keys);
    var chart := ChartSpec(keys);
    forall i | 0 <= i < |chart| ensures chart[i].count > 0 {
      assert d[i] in keys;
    }
    forall e | e in events ensures exists i :: 0 <= i < |chart| && chart[i].eventName == ChartKey(e) {
      var j :| 0 <= j < |events| && events[j] == e;
      assert keys[j] == ChartKey(e);
      assert ChartKey(e) in d;
      var i :| 0 <= i < |d| && d[i] == ChartKey(e);
      assert chart[i].eventName == ChartKey(e);
    }
  }

  /** `processChartData` without the geometry: one slice per distinct event
      name in first-seen order, with its count and its palette colour; the
      counts add up to the number of events. */
  method ChartData(events: seq<SessionEvent>) returns (chart: seq<ChartEntry>)
    ensures chart == ChartSpec(ChartKeys(events))
    ensures TotalCount(chart) == |events|
  {
    var keys := ChartKeys(events);
    var order, counts := Tally(keys);
    chart := seq(|order|, i requires 0 <= i < |order| => ChartEntry(order[i], counts[order[i]], GetColor(i)));
    TallyChartIsSpec(keys, order, counts, chart);
    TotalCountIsSum(chart, order, counts);
  }

  /** A page-view tally entry. */
  datatype PageCount = PageCount(page: string, count: int)

  /** A bar of the page-view chart (its percentage is not modelled). */
  datatype PageViewEntry = PageViewEntry(page: string, count: int, color: string)

  /** The `page_viewed` events, in order. */
  function PageViews(events: seq<SessionEvent>): (r: seq<SessionEvent>)
    ensures |r| <= |events|
    ensures forall e :: e in r <==> e in events && e.eventName == Some("page_viewed")
  {
    if events == [] then []
    else (if events[0].eventName == Some("page_viewed") then [events[0]] else []) + PageViews(events[1..])
  }

  /** The key a page view is tallied under: its title, or `Unknown Page` for a
      missing or empty one. */
  function PageKey(ev: SessionEvent): string
  {
    OrElse(ev.pageTitle, "Unknown Page")
  }

  function PageKeys(events: seq<SessionEvent>): (keys: seq<string>)
  {
    var pv := PageViews(events);
    seq(|pv|, i requires 0 <= i < |pv| => PageKey(pv[i]))
  }

  predicate SortedDesc(s: seq<PageCount>)
  {
    forall i, j :: 0 <= i < j < |s| ==> s[i].count >= s[j].count
  }

  predicate DistinctPages(s: seq<PageCount>)
  {
    forall i, j :: 0 <= i < j < |s| ==> s[i].page != s[j].page
  }

  /** Inserts `x` after every entry whose count is at least its own. */
  function Insert(x: PageCount, s: seq<PageCount>): (r: seq<PageCount>)
    ensures multiset(r) == multiset(s) + multiset{x}
  {
    if s == [] then [x]
    else if s[0].count >= x.count then
      assert s == [s[0]] + s[1..];
      [s[0]] + Insert(x, s[1..])
    else [x] + s
  }

  /** `sort((a, b) => b[1] - a[1])`: by count, largest first; equal counts
      keep their order. */
  function SortByCountDesc(s: seq<PageCount>): (r: seq<PageCount>)
    ensures multiset(r) == multiset(s)
  {
    if s == [] then []
    else
      assert s == s[..|s| - 1] + [s[|s| - 1]];
      Insert(s[|s| - 1], SortByCountDesc(s[..|s| - 1]))
  }

  lemma {:induction false} InsertSorted(x: PageCount, s: seq<PageCount>)
    requires SortedDesc(s)
    ensures SortedDesc(Insert(x, s))
  {
    if s != [] && s[0].count >= x.count {
      assert SortedDesc(s[1..]) by {
        forall i, j | 0 <= i < j < |s[1..]| ensures s[1..][i].count >= s[1..][j].count {
          assert s[1..][i] == s[i + 1] && s[1..][j] == s[j + 1];
        }
      }
      InsertSorted(x, s[1..]);
      var r := Insert(x, s[1..]);
      forall j | 0 <= j < |r| ensures s[0].count >= r[j].count {
        assert r[j] in multiset(r);
        if r[j] != x {
          assert r[j] in multiset(s[1..]);
          var m :| 0 <= m < |s[1..]| && s[1..][m] == r[j];
          assert s[m + 1] == r[j];
        }
      }
    }
  }

  lemma {:induction false} InsertDistinct(x: PageCount, s: seq<PageCount>)
    requires DistinctPages(s)
    requires forall i :: 0 <= i < |s| ==> s[i].page != x.page
    ensures DistinctPages(Insert(x, s))
  {
    if s != [] && s[0].count >= x.count {
      InsertDistinct(x, s[1..]);
      var r := Insert(x, s[1..]);
      forall j | 0 <= j < |r| ensures s[0].page != r[j].page {
        assert r[j] in multiset(r);
        if r[j] != x {
          assert r[j] in multiset(s[1..]);
          var m :| 0 <= m < |s[1..]| && s[1..][m] == r[j];
          assert s[m + 1] == r[j];
        }
      }
    }
  }

  /** The sort orders by count and keeps one entry per page. */
  lemma {:induction false} SortByCountDescSpec(s: seq<PageCount>)
    ensures SortedDesc(SortByCountDesc(s))
    ensures DistinctPages(s) ==> DistinctPages(SortByCountDesc(s))
  {
    if s != [] {
      var init := s[..|s| - 1];
      var x := s[|s| - 1];
      SortByCountDescSpec(init);
      InsertSorted(x, SortByCountDesc(init));
      if DistinctPages(s) {
        var sorted := SortByCountDesc(init);
        forall i | 0 <= i < |sorted| ensures sorted[i].page != x.page {
          assert sorted[i] in multiset(sorted);
          var m :| 0 <= m < |init| && init[m] == sorted[i];
          assert s[m] == sorted[i];
        }
        InsertDistinct(x, sorted);
      }
    }
  }

  function Min(a: int, b: int): int
  {
    if a < b then a else b
  }

  /** The five most viewed pages, `slice(0, 5)` of the sorted tally. */
  function TopFive(entries: seq<PageCount>): seq<PageCount>
  {
    var sorted := SortByCountDesc(entries);
    sorted[..Min(5, |sorted|)]
  }

  /** An element at a position before `n` belongs to the first `n` elements. */
  lemma PrefixMember(s: seq<PageCount>, n: nat, j: nat)
    requires n <= |s| && j < |s|
    ensures j < n ==> s[j] in s[..n]
  {
    if j < n {
      assert s[..n][j] == s[j];
    }
  }

  /** At most five entries, largest count first, all taken from the tally,
      one per page, and no entry left out has a larger count than any
      entry kept. */
  lemma TopFiveSpec(entries: seq<PageCount>)
    ensures var r := TopFive(entries);
      |r| == Min(5, |entries|)
      && SortedDesc(r)
      && (DistinctPages(entries) ==> DistinctPages(r))
      && (forall i :: 0 <= i < |r| ==> r[i] in entries)
      && (forall e :: e in entries && e !in r ==> forall i :: 0 <= i < |r| ==> e.count <= r[i].count)
  {
    var sorted := SortByCountDesc(entries);
    SortByCountDescSpec(entries);
    assert |sorted| == |multiset(sorted)| == |multiset(entries)| == |entries|;
    var r := TopFive(entries);
    forall i | 0 <= i < |r| ensures r[i] in entries {
      assert r[i] == sorted[i];
      assert sorted[i] in multiset(sorted);
    }
    forall e | e in entries && e !in r ensures forall i :: 0 <= i < |r| ==> e.count <= r[i].count {
      assert e in multiset(entries);
      assert e in multiset(sorted);
      var j :| 0 <= j < |sorted| && sorted[j] == e;
      PrefixMember(sorted, |r|, j);
      forall i | 0 <= i < |r| ensures e.count <= r[i].count {
        assert r[i] == sorted[i];
      }
    }
  }

  /** The tally entries of a list of keys, in first-seen order. */
  function PageCountsOf(keys: seq<string>): (r: seq<PageCount>)
    ensures |r| == |Dedup(keys)| && DistinctPages(r)
    ensures forall i :: 0 <= i < |r| ==> r[i].page == Dedup(keys)[i] && r[i].count == multiset(keys)[r[i].page]
  {
    var d := Dedup(keys);
    seq(|d|, i requires 0 <= i < |d| => PageCount(d[i], multiset(keys)[d[i]]))
  }

  /** What `processPageViewData` should produce for a list of page keys. */
  function PageViewSpec(keys: seq<string>): (r: seq<PageViewEntry>)
    ensures |r| == |TopFive(PageCountsOf(keys))|
    ensures forall i :: 0 <= i < |r| ==> (r[i].page == TopFive(PageCountsOf(keys))[i].page
      && r[i].count == TopFive(PageCountsOf(keys))[i].count && r[i].color == GetColor(i))
  {
    var top := TopFive(PageCountsOf(keys));
    seq(|top|, i requires 0 <= i < |top| => PageViewEntry(top[i].page, top[i].count, GetColor(i)))
  }

  /** The page-view bars: at most five, one per page, largest count first,
      each count the page's real number of views. */
  lemma PageViewBars(keys: seq<string>)
    ensures var r := PageViewSpec(keys);
      |r| == Min(5, |Dedup(keys)|)
      && (forall i, j :: 0 <= i < j < |r| ==> r[i].count >= r[j].count)
      && (forall i :: 0 <= i < |r| ==> r[i].page in keys && r[i].count == multiset(keys)[r[i].page] > 0)
      && (forall i, j :: 0 <= i < j < |r| ==> r[i].page != r[j].page)
  {
    var entries := PageCountsOf(keys);
    var d := Dedup(keys);
    var top := TopFive(entries);
    TopFiveSpec(entries);
    var r := PageViewSpec(keys);
    forall i | 0 <= i < |r| ensures r[i].page in keys && r[i].count == multiset(keys)[r[i].page] > 0 {
      assert top[i] in entries;
      var m :| 0 <= m < |entries| && entries[m] == top[i];
      assert d[m] in keys;
    }
  }

  /** No page left out of the bars was viewed more often than a page shown. */
  lemma PageViewDominance(keys: seq<string>, p: string)
    requires p in keys
    requires forall i :: 0 <= i < |PageViewSpec(keys)| ==> PageViewSpec(keys)[i].page != p
    ensures forall i :: 0 <= i < |PageViewSpec(keys)| ==> multiset(keys)[p] <= PageViewSpec(keys)[i].count
  {
    var entries := PageCountsOf(keys);
    var d := Dedup(keys);
    var top := TopFive(entries);
    TopFiveSpec(entries);
    var r := PageViewSpec(keys);
    assert p in d;
    var m :| 0 <= m < |d| && d[m] == p;
    var e := entries[m];
    assert e in entries;
    assert e !in top by {
      forall i | 0 <= i < |top| ensures top[i] != e {
        assert r[i].page == top[i].page;
      }
    }
  }

  /** `processPageViewData`: tallies the page views and keeps the five most
      viewed pages, coloured by position. */
  method PageViewData(events: seq<SessionEvent>) returns (bars: seq<PageViewEntry>)
    ensures bars == PageViewSpec(PageKeys(events))
    ensures |bars| <= 5
  {
    var keys := PageKeys(events);
    var order, counts := Tally(keys);
    var entries := seq(|order|, i requires 0 <= i < |order| => PageCount(order[i], counts[order[i]]));
    ghost var spec := PageCountsOf(keys);
    assert forall i :: 0 <= i < |entries| ==> entries[i] == spec[i];
    assert entries == spec;
    var top := TopFive(entries);
    bars := seq(|top|, i requires 0 <= i < |top| => PageViewEntry(top[i].page, top[i].count, GetColor(i)));
    ghost var want := PageViewSpec(keys);
    assert forall i :: 0 <= i < |bars| ==> bars[i] == want[i];
  }

  // ---------------------------------------------------------------------
  // Summary figures

  /** `uniquePages`: the number of distinct `Page_Title__c` values among the
      page views, where a missing title and an empty one are different
      values. */
  function UniquePages(events: seq<SessionEvent>): nat
  {
    |set e | e in PageViews(events) :: e.pageTitle|
  }

  lemma ImageNoLarger(titles: set<Option<string>>)
    ensures |set t | t in titles :: OrElse(t, "Unknown Page")| <= |titles|
    decreases |titles|
  {
    if titles != {} {
      var x :| x in titles;
      var rest := titles - {x};
      ImageNoLarger(rest);
      assert (set t | t in titles :: OrElse(t, "Unknown Page")) == (set t | t in rest :: OrElse(t, "Unknown Page")) + {OrElse(x, "Unknown Page")};
    }
  }

  /** The page-view tally merges missing, empty and literal `Unknown Page`
      titles, so it never has more pages than `uniquePages` counts, and it
      is empty exactly when there are no page views. */
  lemma PageTallyAtMostUniquePages(events: seq<SessionEvent>)
    ensures |set k | k in PageKeys(events)| <= UniquePages(events)
    ensures UniquePages(events) == 0 <==> PageKeys(events) == []
  {
    var pv := PageViews(events);
    var titles := set e | e in pv :: e.pageTitle;
    var keys := PageKeys(events);
    assert (set k | k in keys) == (set t | t in titles :: OrElse(t, "Unknown Page")) by {
      forall k | k in keys ensures k in (set t | t in titles :: OrElse(t, "Unknown Page")) {
        var i :| 0 <= i < |keys| && keys[i] == k;
        assert pv[i] in pv;
      }
      forall t | t in titles ensures OrElse(t, "Unknown Page") in keys {
        var e :| e in pv && e.pageTitle == t;
        var i :| 0 <= i < |pv| && pv[i] == e;
        assert keys[i] == OrElse(t, "Unknown Page");
      }
    }
    ImageNoLarger(titles);
    if pv != [] {
      assert pv[0].pageTitle in titles;
    }
  }

  /** A view without a title and one with an empty title are two pages for
      `uniquePages` but one `Unknown Page` bar. */
  lemma UnknownTitlesCountedTwice(a: SessionEvent, b: SessionEvent)
    requires a.eventName == Some("page_viewed") && b.eventName == Some("page_viewed")
    requires a.pageTitle == None && b.pageTitle == Some("")
    ensures UniquePages([a, b]) == 2
    ensures PageKeys([a, b]) == ["Unknown Page", "Unknown Page"]
  {
    assert PageViews([a, b]) == [a, b] by {
      assert [a, b][1..] == [b];
      assert PageViews([b]) == [b] by { assert [b][1..] == []; }
    }
    assert (set e | e in [a, b] :: e.pageTitle) == {None, Some("")};
  }

  /** How long the session lasted. */
  datatype Duration = NotAvailable | MinutesSeconds(minutes: int, seconds: int)

  /** JavaScript's `%` with a positive divisor: the remainder takes the sign
      of the dividend. */
  function TruncRem(a: int, b: int): (r: int)
    requires b > 0
    ensures a >= 0 ==> 0 <= r < b
    ensures a < 0 ==> -b < r <= 0
    ensures (a - r) % b == 0
  {
    if a >= 0 then
      RemainderGap(a, b);
      a % b
    else
      RemainderGap(-a, b);
      -((-a) % b)
  }

  /** Taking the remainder off a number leaves a multiple of the divisor. */
  lemma RemainderGap(n: int, b: int)
    requires b > 0
    ensures (n - n % b) % b == 0 && (n % b - n) % b == 0
  {
    var q := n / b;
    assert n - n % b == q * b && n % b - n == (-q) * b by {
      assert n == b * q + n % b;
    }
    MultipleRem(q, b);
    MultipleRem(-q, b);
  }

  /** A multiple of a positive number leaves no remainder. */
  lemma MultipleRem(k: int, b: int)
    requires b > 0
    ensures (k * b) % b == 0
  {
    var q := (k * b) / b;
    var d := k - q;
    assert (k * b) % b == b * d by {
      assert k * b == b * q + (k * b) % b;
      assert b * d == b * k - b * q;
    }
  }

  /** `sessionDuration`, given the number of events and the millisecond
      difference between the last and the first event's creation time:
      `Math.floor` division for the minutes, truncating `%` then
      `Math.floor` for the seconds. */
  function SessionDuration(eventCount: nat, durationMs: int): (d: Duration)
    ensures d.NotAvailable? <==> eventCount < 2
  {
    if eventCount < 2 then NotAvailable
    else MinutesSeconds(durationMs / 60000, TruncRem(durationMs, 60000) / 1000)
  }

  /** For a non-negative duration the split is exact to the second: whole
      minutes, then 0 to 59 whole seconds. */
  lemma SessionDurationSplit(eventCount: nat, durationMs: int)
    requires eventCount >= 2 && durationMs >= 0
    ensures var d := SessionDuration(eventCount, durationMs);
      d.minutes >= 0 && 0 <= d.seconds < 60
      && d.minutes * 60000 + d.seconds * 1000 <= durationMs < d.minutes * 60000 + (d.seconds + 1) * 1000
  {
    var q := durationMs / 60000;
    var r := durationMs % 60000;
    assert durationMs == q * 60000 + r;
    var s := r / 1000;
    assert r == s * 1000 + r % 1000;
  }

  /** A negative duration (events out of order) is split into a negative
      minute count and a negative second count: −1.5 s shows as −1 min −2 s. */
  lemma NegativeDurationExample()
    ensures SessionDuration(2, -1500) == MinutesSeconds(-1, -2)
  {
  }

  // ---------------------------------------------------------------------
  // The component

  /** An event as the timeline holds it, with its icon and short type (the
      formatted date is not modelled). */
  datatype TimelineEvent = TimelineEvent(event: SessionEvent, iconName: string, shortEventType: string)

  /** What the `@wire` adapter delivers: data, an error, or nothing yet. */
  datatype WireResult = WireData(data: seq<SessionEvent>) | WireError(error: string) | WirePending

  predicate AllTyped(data: seq<SessionEvent>)
  {
    forall i :: 0 <= i < |data| ==> data[i].eventType.Some?
  }

  function Decorate(data: seq<SessionEvent>): (r: seq<TimelineEvent>)
    requires AllTyped(data)
    ensures |r| == |data|
  {
    seq(|data|, i requires 0 <= i < |data| && AllTyped(data) =>
      TimelineEvent(data[i], GetIconName(data[i].eventType), GetShortEventType(data[i].eventType.value)))
  }

  function Records(events: seq<TimelineEvent>): (r: seq<SessionEvent>)
    ensures |r| == |events|
  {
    seq(|events|, i requires 0 <= i < |events| => events[i].event)
  }

  /** The decorated events still carry the records they were built from. */
  lemma RecordsOfDecorate(data: seq<SessionEvent>)
    requires AllTyped(data)
    ensures Records(Decorate(data)) == data
  {
    var r := Records(Decorate(data));
    forall i | 0 <= i < |data| ensures r[i] == data[i] {
      assert Decorate(data)[i].event == data[i];
    }
  }

  class CustomerJourneyView {
    var events: seq<TimelineEvent>
    var error: Option<string>
    var chartData: seq<ChartEntry>
    var pageViewData: seq<PageViewEntry>
    var showTimelineDetails: bool

    constructor ()
      ensures events == [] && error.None? && chartData == [] && pageViewData == [] && !showTimelineDetails
    {
      events, error, chartData, pageViewData, showTimelineDetails := [], None, [], [], false;
    }

    /** `wiredEvents`. Data replaces the events and rebuilds both charts,
        unless a record lacks a type: `replace` on it throws before anything
        is stored. An error empties the events but leaves both charts as they
        were. */
    method WiredEvents(w: WireResult)
      modifies this
      ensures showTimelineDetails == old(showTimelineDetails)
      ensures w.WirePending? || (w.WireData? && !AllTyped(w.data)) ==>
        events == old(events) && error == old(error) && chartData == old(chartData) && pageViewData == old(pageViewData)
      ensures w.WireError? ==>
        events == [] && error == Some(w.error) && chartData == old(chartData) && pageViewData == old(pageViewData)
      ensures w.WireData? && AllTyped(w.data) ==>
        events == Decorate(w.data) && error.None?
        && chartData == ChartSpec(ChartKeys(w.data)) && pageViewData == PageViewSpec(PageKeys(w.data))
    {
      match w
      case WirePending =>
      case WireError(e) =>
        error := Some(e);
        events := [];
      case WireData(data) =>
        if AllTyped(data) {
          LoadData(data);
        }
    }

    /** The data branch of `wiredEvents` once every record has a type. */
    method LoadData(data: seq<SessionEvent>)
      requires AllTyped(data)
      modifies this
      ensures showTimelineDetails == old(showTimelineDetails)
      ensures events == Decorate(data) && error.None?
      ensures chartData == ChartSpec(ChartKeys(data)) && pageViewData == PageViewSpec(PageKeys(data))
    {
      events := Decorate(data);
      error := None;
      RecordsOfDecorate(data);
      assert Records(events) == data;
      ProcessChartData();
      assert chartData == ChartSpec(ChartKeys(data));
      ProcessPageViewData();
    }

    /** `processChartData`. */
    method ProcessChartData()
      modifies this`chartData
      ensures chartData == ChartSpec(ChartKeys(Records(events)))
      ensures TotalCount(chartData) == |events|
    {
      chartData := ChartData(Records(events));
    }

    /** `processPageViewData`. */
    method ProcessPageViewData()
      modifies this`pageViewData
      ensures pageViewData == PageViewSpec(PageKeys(Records(events)))
    {
      pageViewData := PageViewData(Records(events));
    }

    /** `handleTimelineToggle`. */
    method HandleTimelineToggle(checked: bool)
      modifies this`showTimelineDetails
      ensures showTimelineDetails == checked
    {
      showTimelineDetails := checked;
    }

    /** `totalEvents`, `uniquePages` and `sessionDuration` (the millisecond
        difference between the last and the first event is given). */
    function Summary(durationMs: int): (r: (nat, nat, Duration))
      reads this
      ensures r.0 == |events| && (r.2.NotAvailable? <==> |events| < 2)
    {
      (|events|, UniquePages(Records(events)), SessionDuration(|events|, durationMs))
    }
  }
}
