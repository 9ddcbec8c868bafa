/** What a report asks AWS for: which days, which lines of usage, which amount, grouped by what. */
module RequestMeaning {
  import opened Options
  import opened Calendar
  import opened Reports
  import opened Normalization
  import opened Console
  import ConsoleExact
  import ReportRules

  /** One line of usage: its value in every dimension, and its tag and category values by key. */
  datatype UsageLine = UsageLine(dimension: FilterKey -> string, labels: map<(KeyKind, string), string>)

  // --- What the API makes of a filter ----------------------------------------------------------

  /** The value under a tag or category key; a line without the key counts as the empty value. */
  function Label(u: UsageLine, kind: KeyKind, labelKey: string): string {
    if (kind, labelKey) in u.labels then u.labels[(kind, labelKey)] else ""
  }

  /** The line has no value under the key, or under any key of the kind. */
  ghost predicate Lacks(u: UsageLine, kind: KeyKind, name: Option<string>) {
    if name.Some? then (kind, name.value) !in u.labels else forall k :: (kind, k) !in u.labels
  }

  ghost predicate TermHolds(t: Term, u: UsageLine) {
    match t
    case Dimension(key, values) => u.dimension(key) in values
    case Labelled(kind, labelKey, values) => Label(u, kind, labelKey) in values
    case Absent(kind, name) => Lacks(u, kind, name)
  }

  ghost predicate Passes(filter: seq<Conjunct>, u: UsageLine) {
    forall c :: c in filter ==> (TermHolds(c.term, u) <==> !c.excluded)
  }

  // --- What the report says --------------------------------------------------------------------

  /** A value is among the selected ones; the empty value has a name of its own there. */
  predicate Selects(values: seq<string>, v: string) {
    if v == "" then EMPTY_VALUE in values || "" in values else v != EMPTY_VALUE && v in values
  }

  /** Included or excluded. */
  predicate Agrees(mode: Matching, holds: bool) {
    mode == if holds then Include else Exclude
  }

  /** The line meets the filter of a dimension, if anything is selected there. */
  predicate MeetsDimension(r: Report, key: FilterKey, u: UsageLine) {
    Picked(r, key) != [] ==> Agrees(Sense(r, key), Selects(Picked(r, key), u.dimension(key)))
  }

  /** The line meets the primary filter of tags or categories: the absence of the key, or of all keys
      if none is named, or else the selected values under it. */
  ghost predicate MeetsPrimary(r: Report, kind: KeyKind, u: UsageLine) {
    var key, labelKey := if kind.TagKey? then Tag else CostCategory, PrimaryKey(r, kind);
    if Flagged(r, kind) then Agrees(Sense(r, key), Lacks(u, kind, if labelKey == "" then None else Some(labelKey)))
    else Picked(r, key) != [] ==> Agrees(Sense(r, key), Selects(Picked(r, key), Label(u, kind, labelKey)))
  }

  /** The line meets an additional filter. */
  predicate MeetsKeyed(k: Keyed, u: UsageLine) {
    if k.absent then Agrees(k.mode, (k.kind, k.key) !in u.labels)
    else k.values != [] ==> Agrees(k.mode, Selects(k.values, Label(u, k.kind, k.key)))
  }

  /** The report wants the line: it meets every filter. */
  ghost predicate Wants(r: Report, u: UsageLine) {
    && (forall key: FilterKey :: key != Tag && key != CostCategory ==> MeetsDimension(r, key, u))
    && MeetsPrimary(r, TagKey, u) && MeetsPrimary(r, CategoryKey, u)
    && (forall k :: k in r.keyed ==> MeetsKeyed(k, u))
  }

  // --- The filter says what the report says -------------------------------------------------------

  lemma {:induction false} PlainValues(values: seq<string>, v: string)
    ensures v in Plain(values) <==> Selects(values, v)
  {
    if values != [] {
      PlainValues(values[1..], v);
      assert values == [values[0]] + values[1..];
    }
  }

  lemma PassesAll(a: seq<Conjunct>, b: seq<Conjunct>, u: UsageLine)
    ensures Passes(a + b, u) <==> Passes(a, u) && Passes(b, u)
  {
    hide TermHolds;
  }

  /** The line meets the primary filter of one key of the inventory. */
  ghost predicate Meets(r: Report, key: FilterKey, u: UsageLine) {
    match key
    case Tag => MeetsPrimary(r, TagKey, u)
    case CostCategory => MeetsPrimary(r, CategoryKey, u)
    case _ => MeetsDimension(r, key, u)
  }

  lemma PrimaryMeaning(r: Report, key: FilterKey, u: UsageLine)
    ensures Passes(PrimaryPart(r, key), u) <==> Meets(r, key, u)
  {
    var part := PrimaryPart(r, key);
    if part != [] {
      assert part == [part[0]] && part[0] in part;
    }
    PlainValues(Picked(r, key), u.dimension(key));
    PlainValues(Picked(r, key), Label(u, TagKey, r.tagKey));
    PlainValues(Picked(r, key), Label(u, CategoryKey, r.categoryKey));
    hide Plain, Selects;
  }

  lemma {:induction false} PrimariesMeaning(r: Report, keys: seq<FilterKey>, u: UsageLine)
    ensures Passes(PrimaryParts(r, keys), u) <==> forall key :: key in keys ==> Meets(r, key, u)
  {
    if keys != [] {
      var rest, key := keys[..|keys| - 1], keys[|keys| - 1];
      assert keys == rest + [key];
      hide Passes, Meets, PrimaryPart;
      PrimariesMeaning(r, rest, u);
      PrimaryMeaning(r, key, u);
      PassesAll(PrimaryParts(r, rest), PrimaryPart(r, key), u);
      assert forall k :: k in keys <==> k in rest || k == key;
    } else {
      hide Meets;
    }
  }

  lemma KeyedMeaning(k: Keyed, u: UsageLine)
    ensures Passes(if Active(k) then [KeyedPart(k)] else [], u) <==> MeetsKeyed(k, u)
  {
    PlainValues(k.values, Label(u, k.kind, k.key));
    assert KeyedPart(k) in [KeyedPart(k)];
    hide Plain, Selects;
  }

  lemma {:induction false} KeyedListMeaning(items: seq<Keyed>, u: UsageLine)
    ensures Passes(KeyedParts(items), u) <==> forall k :: k in items ==> MeetsKeyed(k, u)
  {
    if items != [] {
      hide Passes, MeetsKeyed, Active, KeyedPart;
      KeyedMeaning(items[0], u);
      KeyedListMeaning(items[1..], u);
      PassesAll(if Active(items[0]) then [KeyedPart(items[0])] else [], KeyedParts(items[1..]), u);
      assert items == [items[0]] + items[1..];
    } else {
      hide MeetsKeyed;
    }
  }

  /** The filter of the request lets a line of usage through exactly if the report wants it. */
  lemma FilterMeaning(r: Report, u: UsageLine)
    ensures Passes(Expression(r), u) <==> Wants(r, u)
  {
    PrimariesMeaning(r, FILTERS, u);
    KeyedListMeaning(r.keyed, u);
    PassesAll(PrimaryParts(r, FILTERS), KeyedParts(r.keyed), u);
    hide Passes, MeetsKeyed, PrimaryParts, KeyedParts, MeetsPrimary, MeetsDimension;
    forall key: FilterKey
      ensures key in FILTERS
    {
      FiltersComplete(key);
    }
    hide FILTERS;
    WantsByKey(r, u);
  }

  lemma WantsByKey(r: Report, u: UsageLine)
    ensures Wants(r, u) <==> (forall key: FilterKey :: Meets(r, key, u)) && forall k :: k in r.keyed ==> MeetsKeyed(k, u)
  {
    hide MeetsKeyed, MeetsPrimary, MeetsDimension;
    assert Meets(r, Tag, u) <==> MeetsPrimary(r, TagKey, u);
    assert Meets(r, CostCategory, u) <==> MeetsPrimary(r, CategoryKey, u);
    forall key: FilterKey | key != Tag && key != CostCategory
      ensures Meets(r, key, u) <==> MeetsDimension(r, key, u)
    {
    }
  }

  // --- The whole request ---------------------------------------------------------------------------

  /** The request covers the line on the day; its last day is exclusive. */
  ghost predicate Covers(request: Request, d: Date, u: UsageLine) {
    request.start.NotAfter(d) && d.Before(request.until) && Passes(request.filter, u)
  }

  lemma DayAfter(d: Date, end: Date)
    requires d.Valid() && end.Valid()
    ensures d.Before(PlusDays(end, 1)) <==> d.NotAfter(end)
  {
    PlusDaysOrdinal(end, 1);
    OrdinalOrder(d, PlusDays(end, 1));
    OrdinalOrder(end, d);
    hide Ordinal, PlusDays;
  }

  /** The request of a report covers exactly the lines the report wants on the days it reports, the
      last one included. */
  lemma RequestCoversReport(r: Report, d: Date, u: UsageLine)
    requires r.end.Valid() && d.Valid()
    ensures Covers(AwsRequest(r), d, u) <==> r.start.NotAfter(d) && d.NotAfter(r.end) && Wants(r, u)
  {
    DayAfter(d, r.end);
    FilterMeaning(r, u);
    hide PlusDays, Expression, Passes, Wants;
  }

  /** It asks for money unless the report is of usage alone, for resources exactly if the report selects
      or groups by them, and for the groups the report shows; customers are grouped here, not by AWS. */
  lemma RequestOptions(r: Report)
    requires r.end.Valid()
    ensures
      var request := AwsRequest(r);
      && (forall m :: request.metric == Money(m) <==> r.measure != Usage && r.metric == m)
      && (request.metric == NormalizedUsage <==> r.measure == Usage && r.normalized)
      && (request.withResources <==> Picked(r, Resource) != [] || r.groupBy == By(Resource))
      && request.granularity == r.granularity
      && (request.group == Ungrouped <==> r.groupBy == NoGroup || r.groupBy == ByCustomer)
      && (forall k :: request.group == TagGroup(k) <==> r.groupBy == By(Tag) && r.groupKey == k)
      && (forall k :: request.group == CategoryGroup(k) <==> r.groupBy == By(CostCategory) && r.groupKey == k)
      && (forall k :: request.group == DimensionGroup(k) <==> r.groupBy == By(k) && k != Tag && k != CostCategory)
  {
    hide PlusDays, Expression;
  }

  /** Two requests that differ in the order of their restrictions only cover the same lines. */
  lemma SameRequestCoversSame(a: Request, b: Request, d: Date, u: UsageLine)
    requires SameRequest(a, b)
    ensures Covers(a, d, u) <==> Covers(b, d, u)
  {
    hide TermHolds;
    assert forall c :: c in a.filter <==> c in multiset(a.filter);
    assert forall c :: c in b.filter <==> c in multiset(b.filter);
    assert a.(filter := []) == b.(filter := []);
    assert a.start == a.(filter := []).start && a.until == a.(filter := []).until;
  }

  /** So a console link that can come back does so with its meaning: the imported report wants the same
      lines on the same days and shows the same amounts in the same groups. */
  lemma LinkKeepsMeaning(q: Query, today: Date, d: Date, u: UsageLine)
    requires today.Valid() && d.Valid() && Export(q, today).Linked? && ConsoleExact.ComesBack(Normalize(q, today).value)
    ensures
      var r, imported := Normalize(q, today).value, Import(Export(q, today).value, today);
      && imported.Linked? && r.end.Valid() && imported.value.end.Valid()
      && (imported.value.start.NotAfter(d) && d.NotAfter(imported.value.end) && Wants(imported.value, u)
          <==> r.start.NotAfter(d) && d.NotAfter(r.end) && Wants(r, u))
      && (r.measure == Usage <==> imported.value.measure == Usage) && (r.measure != Usage ==> imported.value.metric == r.metric)
      && (imported.value.groupBy in {NoGroup, ByCustomer} <==> r.groupBy in {NoGroup, ByCustomer})
      && imported.value.granularity == r.granularity
  {
    ConsoleExact.LinkRoundTripsExactly(q, today);
    var r, b := Normalize(q, today).value, Import(Export(q, today).value, today).value;
    hide Normalize, Import, Export, Wants, ConsoleExact.ComesBack, AwsRequest, SameRequest;
    RequestCoversReport(r, d, u);
    RequestCoversReport(b, d, u);
    SameRequestCoversSame(AwsRequest(b), AwsRequest(r), d, u);
    RequestOptions(r);
    RequestOptions(b);
    SameOptions(AwsRequest(b), AwsRequest(r));
    assert r.measure != Usage <==> AwsRequest(r).metric == Money(r.metric);
    assert b.measure != Usage <==> AwsRequest(b).metric == Money(b.metric);
  }

  lemma SameOptions(a: Request, b: Request)
    requires SameRequest(a, b)
    ensures a.metric == b.metric && a.group == b.group && a.granularity == b.granularity && a.withResources == b.withResources
  {
    assert a.(filter := []) == b.(filter := []);
    assert a.metric == a.(filter := []).metric && a.group == a.(filter := []).group && a.granularity == a.(filter := []).granularity;
    assert a.withResources == a.(filter := []).withResources;
  }

  /** What is shown beside the numbers: the chart, the name, the mode, the measure but for usage alone,
      the forecast switch and the period compared with. */
  predicate SamePresentation(r: Report, b: Report) {
    && b.chart == r.chart && b.name == r.name && b.mode == r.mode && b.forecast == r.forecast && b.normalized == r.normalized
    && b.measure == (if r.measure == Usage then CostUsage else r.measure)
    && (r.mode == Compare && r.comparison != MonthOverMonth ==> b.compareStart == r.compareStart && b.compareEnd == r.compareEnd)
  }

  lemma ImportedNormal(link: Link, today: Date) returns (s: Imported)
    requires today.Valid() && Import(link, today).Linked?
    ensures |link.groups| <= 1 && Normalize(QueryOfLink(link, s), today) == Accepted(Import(link, today).value)
  {
    hide Normalize, QueryOfLink, ImportFilters;
    s := ImportFilters(link.filters).value;
  }

  lemma Presented(r: Report, query: Query, b: Report)
    requires ReportRules.KeepsChoices(query, b) && ReportRules.KeepsTexts(query, b) && r.name != ""
    requires query.chart == Chosen(r.chart) && query.name == r.name && query.mode == Chosen(r.mode) && query.forecast == Some(r.forecast)
    requires query.normalized == r.normalized && query.measure == if r.measure == Cost then Missing else Chosen(CostUsage)
    requires r.mode == Compare && r.comparison != MonthOverMonth ==>
               && query.comparison == Missing && !query.compareStart.Blank? && query.compareStart == r.compareStart
               && query.compareEnd == r.compareEnd
               && (b.comparison == CustomComparison ==> b.compareStart == query.compareStart && b.compareEnd == query.compareEnd)
    ensures SamePresentation(r, b)
  {
  }

  lemma ComparesDates(r: Report, today: Date)
    requires today.Valid() && ReportRules.Reportable(r, today)
    ensures r.name != "" && (r.mode == Compare ==> r.compareStart.On? && r.compareEnd.On?)
  {
    hide ReportRules.DatesHold, ReportRules.LimitsHold, ReportRules.RulesHold, ReportRules.ForecastHolds, NormalKeyed, NormalValues;
  }

  /** It comes back too whenever a link is imported. */
  lemma LinkKeepsPresentation(q: Query, today: Date)
    requires today.Valid() && Export(q, today).Linked? && Import(Export(q, today).value, today).Linked?
    ensures SamePresentation(Normalize(q, today).value, Import(Export(q, today).value, today).value)
  {
    ReportRules.AcceptedIsReportable(q, today);
    var r := Normalize(q, today).value;
    hide ReportRules.Reportable, Import, Normalize, LinkOf, QueryOfLink, SamePresentation, ReportRules.KeepsFilters, ReportRules.KeepsChoices,
      ReportRules.KeepsTexts;
    ComparesDates(r, today);
    var s := ImportedNormal(LinkOf(r), today);
    var query := QueryOfLink(LinkOf(r), s);
    LinkedQuery(r, s, query);
    ReportRules.AcceptedFields(query, today);
    if r.mode == Compare {
      ReportRules.ComparisonKept(query, today);
    }
    Presented(r, query, Normalize(query, today).value);
  }

  lemma LinkedQuery(r: Report, s: Imported, query: Query)
    requires |LinkOf(r).groups| <= 1 && query == QueryOfLink(LinkOf(r), s)
    ensures query.chart == Chosen(r.chart) && query.name == r.name && query.mode == Chosen(r.mode) && query.forecast == Some(r.forecast)
    ensures query.normalized == r.normalized
    ensures query.measure == if r.measure == Cost then Missing else Chosen(CostUsage)
    ensures r.mode == Compare ==> query.compareStart == r.compareStart && query.compareEnd == r.compareEnd
    ensures r.mode == Compare && r.comparison != MonthOverMonth ==> query.comparison == Missing
  {
    hide ExportFilters, ImportGroup;
  }
}
