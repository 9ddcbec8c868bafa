/** The AWS request of a report, and the console links that carry a report to AWS and back.

    A link is modelled as its decoded fields; a dimension is named by its filter key. */
module Console {
  import opened Options
  import opened Calendar
  import opened Reports
  import opened Normalization

  // --- The request of a report ---------------------------------------------------------------

  datatype Term =
    | Dimension(key: FilterKey, values: seq<string>)
    | Labelled(kind: KeyKind, labelKey: string, values: seq<string>)
    | Absent(kind: KeyKind, name: Option<string>)

  datatype Conjunct = Conjunct(excluded: bool, term: Term)

  function Plain(values: seq<string>): seq<string> {
    if values == [] then [] else [if values[0] == EMPTY_VALUE then "" else values[0]] + Plain(values[1..])
  }

  predicate Flagged(r: Report, kind: KeyKind) {
    if kind.TagKey? then r.untagged else r.uncategorized
  }

  /** The conjunct of one primary filter, if it restricts anything. */
  function PrimaryPart(r: Report, key: FilterKey): seq<Conjunct> {
    var excluded := Sense(r, key) == Exclude;
    if key.Tag? || key.CostCategory? then
      var kind := if key.Tag? then TagKey else CategoryKey;
      var labelKey := PrimaryKey(r, kind);
      if Flagged(r, kind) then [Conjunct(excluded, Absent(kind, if labelKey == "" then None else Some(labelKey)))]
      else if Picked(r, key) == [] then []
      else [Conjunct(excluded, Labelled(kind, labelKey, Plain(Picked(r, key))))]
    else if Picked(r, key) == [] then []
    else [Conjunct(excluded, Dimension(key, Plain(Picked(r, key))))]
  }

  function PrimaryParts(r: Report, keys: seq<FilterKey>): seq<Conjunct> {
    if keys == [] then []
    else PrimaryParts(r, keys[..|keys| - 1]) + PrimaryPart(r, keys[|keys| - 1])
  }

  predicate Active(k: Keyed) {
    k.values != [] || k.absent
  }

  function KeyedPart(k: Keyed): Conjunct {
    Conjunct(k.mode == Exclude, if k.absent then Absent(k.kind, Some(k.key)) else Labelled(k.kind, k.key, Plain(k.values)))
  }

  function KeyedParts(items: seq<Keyed>): seq<Conjunct> {
    if items == [] then []
    else (if Active(items[0]) then [KeyedPart(items[0])] else []) + KeyedParts(items[1..])
  }

  /** `expression`: a conjunction of all restrictions. */
  function Expression(r: Report): seq<Conjunct> {
    PrimaryParts(r, FILTERS) + KeyedParts(r.keyed)
  }

  datatype RequestMetric = UsageQuantity | NormalizedUsage | Money(metric: CostMetric)
  datatype RequestGroup = Ungrouped | TagGroup(labelKey: string) | CategoryGroup(labelKey: string) | DimensionGroup(key: FilterKey)

  datatype Request = Request(withResources: bool, start: Date, until: Date, granularity: Granularity, metric: RequestMetric,
                             filter: seq<Conjunct>, group: RequestGroup)

  function RequestGroupOf(r: Report): RequestGroup {
    match r.groupBy
    case NoGroup => Ungrouped
    case ByCustomer => Ungrouped
    case By(key) => if key.Tag? then TagGroup(r.groupKey) else if key.CostCategory? then CategoryGroup(r.groupKey) else DimensionGroup(key)
  }

  /** `aws_request` over the report's own days. */
  function AwsRequest(r: Report): Request
    requires r.end.Valid()
  {
    Request(ByResource(r), r.start, PlusDays(r.end, 1), r.granularity,
            if r.measure.Usage? then (if r.normalized then NormalizedUsage else UsageQuantity) else Money(r.metric),
            Expression(r), RequestGroupOf(r))
  }

  /** Equal up to the order of the conjuncts. */
  predicate SameRequest(a: Request, b: Request) {
    a.(filter := []) == b.(filter := []) && multiset(a.filter) == multiset(b.filter)
  }

  // --- Console links -----------------------------------------------------------------------------

  datatype LinkGroup = LinkTag(labelKey: string) | LinkCategory(labelKey: string) | LinkDimension(key: FilterKey) | LinkCustomer | LinkOther

  datatype LinkFilter = LinkFilter(dimension: Option<FilterKey>, operator: Option<Matching>, labelKey: Option<string>, values: seq<string>)

  /** The dates are the comparison period in Compare mode. */
  datatype Link = Link(
    mode: Choice<Mode>, start: DateText, end: DateText, baselineStart: DateText, baselineEnd: DateText, monthOverMonth: bool,
    historical: Choice<DateRange>, future: Choice<FutureRange>, granularity: Choice<Granularity>, name: string,
    groups: seq<LinkGroup>, chart: Choice<Chart>, metric: Choice<CostMetric>,
    excludeForecast: bool, untagged: bool, uncategorized: bool, normalized: bool,
    usageAggregate: bool, costAggregate: bool, filters: seq<LinkFilter>)

  datatype LinkError =
    | UnsupportedHistory | UnsupportedForecast | TooManyGroups | CategoryGroupUnverified | TooManyFilters
    | UnsupportedFilter | CategoryFilterUnverified | MissingFilterKey | BadReport(error: Error)
    | ExcludedAbsence | CategoryUnverified | CustomerGrouping | GroupedForecast

  datatype LinkResult<+T> = Linked(value: T) | Unlinked(error: LinkError)

  // Import.

  /** Filters read so far. */
  datatype Imported = Imported(selected: map<FilterKey, seq<string>>, matching: map<FilterKey, Matching>, tagKey: string,
                               additional: seq<RawKeyed>)

  function Named(values: seq<string>): seq<string> {
    if values == [] then [] else [EmptyNamed(values[0])] + Named(values[1..])
  }

  /** The first tag filter is the primary one; later ones are additional. */
  function ImportFilter(s: Imported, f: LinkFilter): LinkResult<Imported> {
    if f.dimension.None? || f.operator.None? || (f.dimension.value in s.selected && !f.dimension.value.Tag? && !f.dimension.value.CostCategory?)
    then Unlinked(UnsupportedFilter)
    else if f.dimension.value.CostCategory? then Unlinked(CategoryFilterUnverified)
    else if f.dimension.value.Tag? && (f.labelKey.None? || f.labelKey.value == "") then Unlinked(MissingFilterKey)
    else
      var key, mode := f.dimension.value, f.operator.value;
      if key.Tag? && Tag in s.selected then
        Linked(s.(additional := s.additional + [RawKeyed(Some(TagKey), f.labelKey.value, Named(f.values), Chosen(mode), false)]))
      else
        Linked(s.(selected := s.selected[key := Named(f.values)], matching := s.matching[key := mode],
                  tagKey := if key.Tag? then f.labelKey.value else s.tagKey))
  }

  const NOTHING: Imported := Imported(map[], map[], "", [])

  function ImportFilters(filters: seq<LinkFilter>): LinkResult<Imported> {
    if filters == [] then Linked(NOTHING)
    else
      var before := ImportFilters(filters[..|filters| - 1]);
      if before.Unlinked? then before else ImportFilter(before.value, filters[|filters| - 1])
  }

  lemma {:induction false} FirstFilterError(filters: seq<LinkFilter>, n: nat)
    requires n <= |filters| && ImportFilters(filters[..n]).Unlinked?
    ensures ImportFilters(filters) == ImportFilters(filters[..n])
  {
    if n < |filters| {
      assert filters[..|filters| - 1][..n] == filters[..n];
      FirstFilterError(filters[..|filters| - 1], n);
    } else {
      assert filters[..n] == filters;
    }
  }

  /** The loop of `import_console_url` over the filters. */
  method ReadFilters(filters: seq<LinkFilter>) returns (result: LinkResult<Imported>)
    ensures result == ImportFilters(filters)
  {
    var state := NOTHING;
    for i := 0 to |filters|
      invariant ImportFilters(filters[..i]) == Linked(state)
    {
      assert filters[..i + 1][..i] == filters[..i];
      var next := ImportFilter(state, filters[i]);
      if next.Unlinked? {
        FirstFilterError(filters, i + 1);
        return next;
      }
      state := next.value;
    }
    assert filters[..|filters|] == filters;
    result := Linked(state);
  }

  function ImportGroup(groups: seq<LinkGroup>): Choice<GroupBy>
    requires |groups| <= 1
  {
    if groups == [] then Chosen(NoGroup)
    else match groups[0]
      case LinkTag(_) => Chosen(By(Tag))
      case LinkCategory(_) => Unknown
      case LinkDimension(key) => if key.UsageTypeGroup? then Unknown else Chosen(By(key))
      case LinkCustomer => Chosen(ByCustomer)
      case LinkOther => Unknown
  }

  function QueryOfLink(link: Link, s: Imported): Query
    requires |link.groups| <= 1
  {
    var compare := link.mode == Chosen(Compare);
    Query("", "", "",
          if compare || !link.historical.Chosen? then Chosen(Custom) else link.historical,
          if compare then Missing else link.future,
          link.start, link.end, Blank, link.granularity, ImportGroup(link.groups),
          if link.groups != [] && link.groups[0].LinkTag? then link.groups[0].labelKey else "",
          link.chart, link.metric, link.mode,
          if compare && link.monthOverMonth then Chosen(MonthOverMonth) else Missing,
          if compare then link.baselineStart else Blank, if compare then link.baselineEnd else Blank,
          s.tagKey, "", link.name,
          if link.usageAggregate then Chosen(if link.costAggregate then CostUsage else Usage) else Missing,
          Some(!link.excludeForecast), link.untagged, link.uncategorized, link.normalized,
          s.selected, map k | k in s.matching :: Chosen(s.matching[k]), KeyedList(s.additional))
  }

  /** `import_console_url` from the decoded link. */
  function Import(link: Link, today: Date): LinkResult<Report>
    requires today.Valid()
  {
    if link.mode != Chosen(Compare) && link.historical.Unknown? then Unlinked(UnsupportedHistory)
    else if link.mode != Chosen(Compare) && link.future.Unknown? then Unlinked(UnsupportedForecast)
    else if |link.groups| > 1 then Unlinked(TooManyGroups)
    else if link.groups != [] && link.groups[0].LinkCategory? then Unlinked(CategoryGroupUnverified)
    else if |link.filters| > |FILTERS| + MAX_KEYED then Unlinked(TooManyFilters)
    else
      var filters := ImportFilters(link.filters);
      if filters.Unlinked? then Unlinked(filters.error)
      else
        var report := Normalize(QueryOfLink(link, filters.value), today);
        if report.Rejected? then Unlinked(BadReport(report.error)) else Linked(report.value)
  }

  // Export.


  function ExportPrimary(r: Report, keys: seq<FilterKey>): seq<LinkFilter> {
    if keys == [] then []
    else
      var key := keys[|keys| - 1];
      ExportPrimary(r, keys[..|keys| - 1])
      + if Picked(r, key) == [] then []
        else [LinkFilter(Some(key), Some(Sense(r, key)),
                         if key.Tag? then Some(r.tagKey) else if key.CostCategory? then Some(r.categoryKey) else None,
                         Plain(Picked(r, key)))]
  }

  function ExportItem(k: Keyed): LinkFilter {
    LinkFilter(Some(if k.kind.TagKey? then Tag else CostCategory), Some(k.mode), Some(k.key), if k.absent then [""] else Plain(k.values))
  }

  function ExportKeyed(items: seq<Keyed>): seq<LinkFilter> {
    if items == [] then []
    else ExportKeyed(items[..|items| - 1]) + if Active(items[|items| - 1]) then [ExportItem(items[|items| - 1])] else []
  }

  function ExportAbsence(r: Report): seq<LinkFilter> {
    (if r.untagged && r.tagKey != "" then [LinkFilter(Some(Tag), Some(Sense(r, Tag)), Some(r.tagKey), [""])] else [])
    + (if r.uncategorized && r.categoryKey != "" then [LinkFilter(Some(CostCategory), Some(Sense(r, CostCategory)), Some(r.categoryKey), [""])] else [])
  }

  function ExportFilters(r: Report): seq<LinkFilter> {
    ExportPrimary(r, FILTERS) + ExportKeyed(r.keyed) + ExportAbsence(r)
  }

  /** The loops of `export_console_url` over both kinds of filters. */
  method WriteFilters(r: Report) returns (filters: seq<LinkFilter>)
    ensures filters == ExportFilters(r)
  {
    filters := [];
    for i := 0 to |FILTERS|
      invariant filters == ExportPrimary(r, FILTERS[..i])
    {
      assert FILTERS[..i + 1][..i] == FILTERS[..i];
      var key := FILTERS[i];
      if Picked(r, key) != [] {
        var labelKey := if key.Tag? then Some(r.tagKey) else if key.CostCategory? then Some(r.categoryKey) else None;
        filters := filters + [LinkFilter(Some(key), Some(Sense(r, key)), labelKey, Plain(Picked(r, key)))];
      }
    }
    assert FILTERS[..|FILTERS|] == FILTERS;
    ghost var primary := filters;
    for i := 0 to |r.keyed|
      invariant filters == primary + ExportKeyed(r.keyed[..i])
    {
      assert r.keyed[..i + 1][..i] == r.keyed[..i];
      if Active(r.keyed[i]) {
        filters := filters + [ExportItem(r.keyed[i])];
      }
    }
    assert r.keyed[..|r.keyed|] == r.keyed;
    filters := filters + ExportAbsence(r);
  }

  function ExportError(r: Report, today: Date): Option<LinkError> {
    if r.untagged && r.tagKey == "" && Sense(r, Tag) == Exclude then Some(ExcludedAbsence)
    else if r.uncategorized && r.categoryKey == "" && Sense(r, CostCategory) == Exclude then Some(ExcludedAbsence)
    else if r.groupBy == By(CostCategory) || Picked(r, CostCategory) != [] || (r.uncategorized && r.categoryKey != "")
            || exists k :: k in r.keyed && k.kind.CategoryKey? && Active(k) then Some(CategoryUnverified)
    else if r.groupBy.ByCustomer? then Some(CustomerGrouping)
    else if r.forecast && today.Before(r.end) && !r.groupBy.NoGroup? then Some(GroupedForecast)
    else None
  }

  function LinkOf(r: Report): Link {
    var compare := r.mode.Compare?;
    Link(Chosen(r.mode), On(r.start), On(r.end), if compare then r.compareStart else Blank, if compare then r.compareEnd else Blank,
         compare && r.comparison.MonthOverMonth?,
         if compare || r.range.Custom? then Missing else Chosen(r.range),
         if compare || r.future == 0 then Missing else Chosen(r.future),
         Chosen(r.granularity), r.name,
         match r.groupBy
           case NoGroup => []
           case ByCustomer => [LinkCustomer]
           case By(key) => [if key.Tag? then LinkTag(r.groupKey) else if key.CostCategory? then LinkCategory(r.groupKey) else LinkDimension(key)],
         Chosen(r.chart), Chosen(r.metric), !r.forecast, r.untagged && r.tagKey == "", r.uncategorized && r.categoryKey == "",
         r.normalized, !r.measure.Cost?, true, ExportFilters(r))
  }

  /** `export_console_url`. */
  function Export(q: Query, today: Date): LinkResult<Link>
    requires today.Valid()
  {
    var report := Normalize(q, today);
    if report.Rejected? then Unlinked(BadReport(report.error))
    else if ExportError(report.value, today).Some? then Unlinked(ExportError(report.value, today).value)
    else Linked(LinkOf(report.value))
  }
}
