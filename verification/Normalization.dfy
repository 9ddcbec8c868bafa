/** `normalize`: from a parsed query to the normal form of a report, and back through the
    query of a report. */
module Normalization {
  import opened Options
  import opened Calendar
  import opened Reports

  datatype Query = Query(
    customer: string, source: string, currency: string,
    range: Choice<DateRange>, future: Choice<FutureRange>, start: DateText, end: DateText, historicalEnd: DateText,
    granularity: Choice<Granularity>, groupBy: Choice<GroupBy>, groupKey: string, chart: Choice<Chart>,
    metric: Choice<CostMetric>, mode: Choice<Mode>,
    comparison: Choice<ComparisonRange>, compareStart: DateText, compareEnd: DateText,
    tagKey: string, categoryKey: string, name: string, measure: Choice<Measure>,
    forecast: Option<bool>, untagged: bool, uncategorized: bool, normalized: bool,
    filters: map<FilterKey, seq<string>>, matching: map<FilterKey, Choice<Matching>>, keyed: KeyedInput)

  datatype Report = Report(
    customer: string, source: string,
    range: DateRange, future: FutureRange, start: Date, end: Date, historicalEnd: Date,
    granularity: Granularity, groupBy: GroupBy, groupKey: string, chart: Chart,
    metric: CostMetric, mode: Mode,
    comparison: ComparisonRange, compareStart: DateText, compareEnd: DateText,
    tagKey: string, categoryKey: string, name: string, measure: Measure,
    forecast: bool, untagged: bool, uncategorized: bool, normalized: bool,
    selected: map<FilterKey, seq<string>>, matching: map<FilterKey, Matching>, keyed: seq<Keyed>)

  const USD := "USD"
  const DEFAULT_NAME := "Cost report"
  const HISTORY_DAYS: int := 731
  const HISTORY_MONTHS: int := 38
  const FORECAST_MONTHS: int := 18
  const DETAIL_DAYS: int := 13

  function ValuesOf(filters: map<FilterKey, seq<string>>, key: FilterKey): seq<string> {
    if key in filters then filters[key] else []
  }

  function MatchingOf(matching: map<FilterKey, Choice<Matching>>, key: FilterKey): Choice<Matching> {
    Default(if key in matching then matching[key] else Missing, Include)
  }

  /** The first filter that is refused, in the order of the inventory. */
  function FilterError(q: Query, keys: seq<FilterKey>): (error: Option<Error>)
    ensures error.None? ==> forall k :: k in keys ==> Values(k, ValuesOf(q.filters, k)).Accepted? && MatchingOf(q.matching, k).Chosen?
  {
    if keys == [] then None
    else if Values(keys[0], ValuesOf(q.filters, keys[0])).Rejected? then Some(BadValues)
    else if !MatchingOf(q.matching, keys[0]).Chosen? then Some(BadMatching)
    else FilterError(q, keys[1..])
  }

  lemma {:induction false} NoFilterError(q: Query, keys: seq<FilterKey>)
    requires forall k :: k in keys ==> Values(k, ValuesOf(q.filters, k)).Accepted? && MatchingOf(q.matching, k).Chosen?
    ensures FilterError(q, keys).None?
  {
    hide Values;
    if keys != [] {
      assert keys[0] in keys && forall k :: k in keys[1..] ==> k in keys;
      NoFilterError(q, keys[1..]);
    }
  }

  predicate GroupOffered(g: GroupBy) {
    g != By(UsageTypeGroup)
  }

  /** Limits on the reported days. */
  function RangeError(start: Date, end: Date, granularity: Choice<Granularity>, today: Date): Option<Error> {
    if end.Before(start) || today.Before(start) || Last(today.month + FORECAST_MONTHS).Before(end) then Some(OutsideForecast)
    else if start.Before(First(today.month - HISTORY_MONTHS)) then Some(TooOld)
    else if Ordinal(Earlier(end, today)) - Ordinal(start) > HISTORY_DAYS && granularity != Chosen(Monthly) then Some(TooLongForDetail)
    else None
  }

  /** Month over month fixes last month and the month before, whatever the query says. */
  function MonthOverMonthQuery(q: Query, today: Date): Query {
    if q.mode == Chosen(Compare) && q.comparison == Chosen(MonthOverMonth) then
      q.(range := Chosen(LastMonth), granularity := Chosen(Monthly),
         compareStart := On(First(today.month - 2)), compareEnd := On(Last(today.month - 2)))
    else q
  }

  function WithDefaults(q: Query): Query {
    q.(currency := if q.currency == "" then USD else q.currency,
       granularity := Default(q.granularity, Monthly), groupBy := Default(q.groupBy, By(Service)),
       chart := Default(q.chart, Stacked), metric := Default(q.metric, CostMetric.Unblended), mode := Default(q.mode, Standard),
       measure := Default(q.measure, Cost), name := if q.name == "" then DEFAULT_NAME else q.name,
       comparison := Default(q.comparison, if q.compareStart.Blank? && q.compareEnd.Blank? then PreviousPeriod else CustomComparison))
  }

  predicate ChoicesKnown(q: Query) {
    && q.granularity.Chosen? && q.groupBy.Chosen? && GroupOffered(q.groupBy.value) && q.chart.Chosen?
    && q.metric.Chosen? && q.mode.Chosen? && q.measure.Chosen? && q.comparison.Chosen?
  }

  predicate NamesFit(q: Query) {
    |q.groupKey| <= MAX_NAME && |q.tagKey| <= MAX_NAME && |q.categoryKey| <= MAX_NAME && |q.name| <= MAX_NAME
  }

  /** The first refusal while fields are read one by one; `q` has its defaults. */
  function ReadError(q: Query, today: Date): Option<Error>
    requires today.Valid()
  {
    if !q.comparison.Chosen? then Some(BadComparisonRange)
    else
      var dates := ResolveDates(q.range, q.future, q.start, q.end, q.historicalEnd, today);
      if dates.Rejected? then Some(dates.error)
      else if RangeError(dates.value.start, dates.value.end, q.granularity, today).Some? then RangeError(dates.value.start, dates.value.end, q.granularity, today)
      else if !ChoicesKnown(q) then Some(BadChoice)
      else if q.currency != USD then Some(NotDollars)
      else if !NamesFit(q) then Some(NameTooLong)
      else if FilterError(q, FILTERS).Some? then FilterError(q, FILTERS)
      else if KeyedFilters(q.keyed).Rejected? then Some(KeyedFilters(q.keyed).error)
      else None
  }

  function Selected(q: Query): map<FilterKey, seq<string>>
    requires FilterError(q, FILTERS).None?
  {
    map k | k in FILTERS :: Values(k, ValuesOf(q.filters, k)).value
  }

  function Matched(q: Query): map<FilterKey, Matching>
    requires FilterError(q, FILTERS).None?
  {
    map k | k in FILTERS :: MatchingOf(q.matching, k).value
  }

  function Read(q: Query, today: Date): Report
    requires today.Valid() && ReadError(q, today).None?
  {
    var d := ResolveDates(q.range, q.future, q.start, q.end, q.historicalEnd, today).value;
    Report(q.customer, q.source, d.range, d.future, d.start, d.end, d.historicalEnd,
           q.granularity.value, q.groupBy.value, q.groupKey, q.chart.value, q.metric.value, q.mode.value,
           q.comparison.value, q.compareStart, q.compareEnd,
           q.tagKey, q.categoryKey, q.name, q.measure.value,
           q.forecast.None? || q.forecast.value, q.untagged, q.uncategorized, q.normalized,
           Selected(q), Matched(q), KeyedFilters(q.keyed).value)
  }

  // --- Rules across fields --------------------------------------------------------------------

  /** Selected values of a filter, and whether they are included or excluded. */
  function Picked(r: Report, key: FilterKey): seq<string> {
    ValuesOf(r.selected, key)
  }

  function Sense(r: Report, key: FilterKey): Matching {
    if key in r.matching then r.matching[key] else Include
  }

  function PrimaryKey(r: Report, kind: KeyKind): string {
    if kind.TagKey? then r.tagKey else r.categoryKey
  }

  predicate PrimaryUsed(r: Report, kind: KeyKind)
  {
    if kind.TagKey? then Picked(r, Tag) != [] || r.untagged else Picked(r, CostCategory) != [] || r.uncategorized
  }

  predicate OneUnit(r: Report, key: FilterKey)
  {
    |Picked(r, key)| == 1 && Sense(r, key) == Include
  }

  predicate ByResource(r: Report)
  {
    Picked(r, Resource) != [] || r.groupBy == By(Resource)
  }

  function RuleError(r: Report, today: Date): Option<Error>
    requires today.Valid()
  {
    if exists item :: item in r.keyed && item.key == PrimaryKey(r, item.kind) && PrimaryUsed(r, item.kind) then Some(RepeatedKey)
    else if (r.groupBy == By(Tag) || r.groupBy == By(CostCategory)) && r.groupKey == "" then Some(MissingGroupKey)
    else if Picked(r, Tag) != [] && r.tagKey == "" then Some(MissingKey)
    else if Picked(r, Tag) != [] && r.untagged then Some(ValuesAndAbsence)
    else if Picked(r, CostCategory) != [] && r.categoryKey == "" then Some(MissingKey)
    else if Picked(r, CostCategory) != [] && r.uncategorized then Some(ValuesAndAbsence)
    else if !r.measure.Cost? && !OneUnit(r, UsageType) && !OneUnit(r, UsageTypeGroup) then Some(MixedUnits)
    else if r.normalized && r.measure.Cost? then Some(NotUsage)
    else if ByResource(r) && (Picked(r, Service) != [EC2] || Sense(r, Service) != Include) then Some(NotCompute)
    else if (ByResource(r) || r.granularity.Hourly?) && (r.start.Before(PlusDays(today, -DETAIL_DAYS)) || today.Before(r.end)) then
      Some(TooOldForDetail)
    else None
  }

  /** The period before [start, end]: as many whole months, or as many days. */
  function Preceding(start: Date, end: Date): (Date, Date)
    requires start.Valid()
  {
    if start.day == 1 && end.day == DaysIn(end.month) then
      (PlusMonths(start, -(end.month - start.month + 1)), PlusDays(start, -1))
    else (PlusDays(start, -(Ordinal(end) - Ordinal(start) + 1)), PlusDays(start, -1))
  }

  /** It ends on the day before the start and is as long: in months when both ends are month
      boundaries, in days otherwise. */
  lemma PrecedingPeriod(start: Date, end: Date)
    requires start.Valid() && end.Valid() && !end.Before(start)
    ensures
      var first, last := Preceding(start, end).0, Preceding(start, end).1;
      && first.Valid() && last.Valid() && Ordinal(last) + 1 == Ordinal(start)
      && (if start.day == 1 && end.day == DaysIn(end.month)
          then first.day == 1 && start.month - first.month == end.month + 1 - start.month
          else Ordinal(last) - Ordinal(first) == Ordinal(end) - Ordinal(start))
  {
    PlusDaysOrdinal(start, -1);
    PlusDaysOrdinal(start, -(Ordinal(end) - Ordinal(start) + 1));
  }

  /** Fill in and check the comparison dates of a comparison report. */
  function WithComparison(r: Report, today: Date): Result<Report>
    requires today.Valid() && r.start.Valid()
  {
    if r.mode.Standard? then Accepted(r)
    else
      var from := if r.comparison.PreviousPeriod? then Blank else r.compareStart;
      var until := if r.comparison.PreviousPeriod? then Blank else r.compareEnd;
      if from.Blank? != until.Blank? then Rejected(OneComparisonDate)
      else
        var previous := Preceding(r.start, r.end);
        var first := if from.Blank? then On(previous.0) else from;
        var last := if from.Blank? then On(previous.1) else until;
        if !(Readable(first) && Readable(last)) then Rejected(BadComparisonDates)
        else if last.date.Before(first.date) || today.Before(last.date) then Rejected(ComparisonInFuture)
        else if first.date.Before(First(today.month - HISTORY_MONTHS)) then Rejected(TooOld)
        else if Ordinal(last.date) - Ordinal(first.date) > HISTORY_DAYS && !r.granularity.Monthly? then Rejected(TooLongForDetail)
        else if (ByResource(r) || r.granularity.Hourly?) && first.date.Before(PlusDays(today, -DETAIL_DAYS)) then Rejected(TooOldForDetail)
        else Accepted(r.(compareStart := first, compareEnd := last))
  }

  function FutureError(r: Report, today: Date): Option<Error> {
    if !today.Before(r.end) then None
    else if r.measure.CostUsage? then Some(FutureUsage)
    else if !r.forecast || !r.measure.Cost? || r.mode.Compare? then Some(FutureNotForecast)
    else if r.granularity.Daily? && PlusMonths(today, 3).Before(r.end) then Some(DailyForecastTooLong)
    else None
  }

  /** The checks on a read report, in order. */
  function Checked(r: Report, today: Date): Result<Report>
    requires today.Valid() && r.start.Valid()
  {
    if RuleError(r, today).Some? then Rejected(RuleError(r, today).value)
    else
      var compared := WithComparison(r, today);
      if compared.Rejected? then compared
      else if FutureError(compared.value, today).Some? then Rejected(FutureError(compared.value, today).value)
      else compared
  }

  lemma ReadIsNormal(q: Query, today: Date)
    requires today.Valid() && ReadError(q, today).None?
    ensures Normal(Read(q, today))
  {
    DatesAgain(q.range, q.future, q.start, q.end, q.historicalEnd, today);
    KeyedNormal(q.keyed);
    forall k: FilterKey
      ensures k in FILTERS
    {
      FiltersComplete(k);
    }
    forall k: FilterKey
      ensures NormalValues(k, Values(k, ValuesOf(q.filters, k)).value)
    {
      FiltersComplete(k);
      ValuesNormal(k, ValuesOf(q.filters, k));
    }
  }

  /** Read and check a query that has its defaults. */
  function ReadAndCheck(q: Query, today: Date): Result<Report>
    requires today.Valid()
  {
    if ReadError(q, today).Some? then Rejected(ReadError(q, today).value)
    else
      ReadIsNormal(q, today);
      Checked(Read(q, today), today)
  }

  function Normalize(q: Query, today: Date): Result<Report>
    requires today.Valid()
  {
    ReadAndCheck(MonthOverMonthQuery(WithDefaults(q), today), today)
  }

  // --- The query of a report -----------------------------------------------------------------

  /** `querydict`. */
  function QueryOf(r: Report): Query {
    Query(r.customer, r.source, USD, Chosen(r.range), Chosen(r.future), On(r.start), On(r.end), On(r.historicalEnd),
          Chosen(r.granularity), Chosen(r.groupBy), r.groupKey, Chosen(r.chart), Chosen(r.metric), Chosen(r.mode),
          Chosen(r.comparison), r.compareStart, r.compareEnd, r.tagKey, r.categoryKey, r.name, Chosen(r.measure),
          Some(r.forecast), r.untagged, r.uncategorized, r.normalized,
          r.selected, map k | k in r.matching :: Chosen(r.matching[k]),
          KeyedText(RawItems(r.keyed), ListSize(r.keyed, COMPACT)))
  }

  /** What every read report satisfies. */
  ghost predicate Normal(r: Report) {
    && r.start.Valid() && r.end.Valid() && r.historicalEnd.Valid() && !r.end.Before(r.start)
    && r.range.Known() && KnownFuture(r.future)
    && (forall k: FilterKey :: k in r.selected && k in r.matching && NormalValues(k, r.selected[k]))
    && NormalKeyed(r.keyed)
  }

  // --- Normal reports are their own normal form ------------------------------------------------

  lemma FiltersAgain(r: Report)
    requires Normal(r)
    requires r.selected.Keys == (set k | k in FILTERS) && r.matching.Keys == (set k | k in FILTERS)
    ensures FilterError(QueryOf(r), FILTERS).None?
    ensures Selected(QueryOf(r)) == r.selected && Matched(QueryOf(r)) == r.matching
  {
    hide Values, NormalValues, FILTERS, RawItems, ListSize, NormalKeyed;
    var q := QueryOf(r);
    forall k | k in FILTERS
      ensures Values(k, ValuesOf(q.filters, k)) == Accepted(r.selected[k]) && MatchingOf(q.matching, k) == Chosen(r.matching[k])
    {
      NormalValuesAgain(k, r.selected[k]);
    }
    NoFilterError(q, FILTERS);
  }

  /** Once every field of a query reads as the field of a report, the whole query does. */
  lemma FieldsAgain(q: Query, r: Report, dates: Dates, today: Date)
    requires today.Valid() && q == QueryOf(r)
    requires |r.name| <= MAX_NAME && |r.groupKey| <= MAX_NAME && |r.tagKey| <= MAX_NAME && |r.categoryKey| <= MAX_NAME
    requires GroupOffered(r.groupBy)
    requires dates == Dates(r.range, r.future, r.start, r.end, r.historicalEnd)
    requires ResolveDates(q.range, q.future, q.start, q.end, q.historicalEnd, today) == Accepted(dates)
    requires RangeError(dates.start, dates.end, q.granularity, today).None?
    requires FilterError(q, FILTERS).None? && Selected(q) == r.selected && Matched(q) == r.matching
    requires KeyedFilters(q.keyed) == Accepted(r.keyed)
    ensures ReadError(q, today).None? && Read(q, today) == r
  {
    hide ResolveDates, RangeError, KeyedFilters, FilterError, Selected, Matched, FILTERS, RawItems, ListSize;
  }

  /** Reading the query of a report that could be read gives the report back. */
  lemma ReadAgain(r: Report, dates: Dates, today: Date)
    requires today.Valid() && Normal(r)
    requires |r.name| <= MAX_NAME && |r.groupKey| <= MAX_NAME && |r.tagKey| <= MAX_NAME && |r.categoryKey| <= MAX_NAME
    requires GroupOffered(r.groupBy)
    requires dates == Dates(r.range, r.future, r.start, r.end, r.historicalEnd)
    requires ResolveDates(Chosen(r.range), Chosen(r.future), On(r.start), On(r.end), On(r.historicalEnd), today) == Accepted(dates)
    requires RangeError(dates.start, dates.end, Chosen(r.granularity), today).None?
    requires r.selected.Keys == (set k | k in FILTERS) && r.matching.Keys == (set k | k in FILTERS)
    ensures ReadError(QueryOf(r), today).None? && Read(QueryOf(r), today) == r
  {
    hide ResolveDates, RangeError, KeyedFilters, FilterError, Selected, Matched, FILTERS, RawItems, ListSize, ReadError, Read;
    hide Values, NormalValues, NormalKeyed;
    FiltersAgain(r);
    KeyedAgain(r.keyed);
    FieldsAgain(QueryOf(r), r, dates, today);
  }

  lemma ReadKeys(q: Query, today: Date)
    requires today.Valid() && ReadError(q, today).None?
    ensures Read(q, today).selected.Keys == (set k | k in FILTERS) && Read(q, today).matching.Keys == (set k | k in FILTERS)
  {
    hide Values, ResolveDates, FILTERS;
  }

  lemma SameRules(r: Report, from: DateText, until: DateText, today: Date)
    requires today.Valid()
    ensures RuleError(r.(compareStart := from, compareEnd := until), today) == RuleError(r, today)
  {
    hide PlusDays;
  }

  /** Comparison dates found once are found again. */
  lemma ComparedAgain(d: Report, today: Date)
    requires today.Valid() && d.start.Valid() && WithComparison(d, today).Accepted?
    ensures
      var r := WithComparison(d, today).value;
      && r == d.(compareStart := r.compareStart, compareEnd := r.compareEnd)
      && (d.comparison.MonthOverMonth? && d.compareStart.On? ==> r.compareStart == d.compareStart && r.compareEnd == d.compareEnd)
      && WithComparison(r, today) == Accepted(r)
  {
    hide Preceding, PlusDays, Ordinal, FILTERS;
  }

  /** No other check reads the comparison dates. */
  lemma CheckedAgain(d: Report, today: Date)
    requires today.Valid() && d.start.Valid() && Checked(d, today).Accepted?
    ensures
      var r := Checked(d, today).value;
      && r == d.(compareStart := r.compareStart, compareEnd := r.compareEnd)
      && (d.comparison.MonthOverMonth? && d.compareStart.On? ==> r.compareStart == d.compareStart && r.compareEnd == d.compareEnd)
      && Checked(r, today) == Accepted(r)
  {
    var r := Checked(d, today).value;
    ComparedAgain(d, today);
    SameRules(d, r.compareStart, r.compareEnd, today);
    hide RuleError, WithComparison;
  }

  /** Every field of a report's query is set, and month over month has set the fields it would set. */
  lemma FullAgain(q: Query, r: Report, today: Date)
    requires today.Valid()
    requires
      var full := MonthOverMonthQuery(WithDefaults(q), today);
      && ReadError(full, today).None?
      && var d := Read(full, today);
      && r == d.(compareStart := r.compareStart, compareEnd := r.compareEnd)
      && (d.comparison.MonthOverMonth? && d.compareStart.On? ==> r.compareStart == d.compareStart && r.compareEnd == d.compareEnd)
    ensures MonthOverMonthQuery(WithDefaults(QueryOf(r)), today) == QueryOf(r)
    ensures r.name != "" && |r.name| <= MAX_NAME && GroupOffered(r.groupBy)
    ensures |r.groupKey| <= MAX_NAME && |r.tagKey| <= MAX_NAME && |r.categoryKey| <= MAX_NAME
  {
    hide FilterError, KeyedFilters, RangeError, Selected, Matched, RelativeDays, FILTERS, RawItems, ListSize;
  }

  /** The report is its own normal form: its query has every field, reads as the report, and
      passes the checks unchanged. */
  ghost predicate Fixed(r: Report, today: Date)
    requires today.Valid()
  {
    && MonthOverMonthQuery(WithDefaults(QueryOf(r)), today) == QueryOf(r)
    && ReadError(QueryOf(r), today).None? && Read(QueryOf(r), today) == r
    && r.start.Valid() && Checked(r, today) == Accepted(r)
  }

  lemma FixedParts(r: Report, today: Date)
    requires today.Valid() && Fixed(r, today)
    ensures RuleError(r, today).None? && WithComparison(r, today) == Accepted(r) && FutureError(r, today).None?
  {
    hide ReadError, Read, QueryOf, MonthOverMonthQuery, WithDefaults, RuleError, WithComparison, FutureError;
  }

  lemma NormalizedIsFixed(q: Query, today: Date)
    requires today.Valid() && Normalize(q, today).Accepted?
    ensures Fixed(Normalize(q, today).value, today)
  {
    hide RangeError, FilterError, Selected, Matched, KeyedFilters, Values, NormalValues, NormalKeyed, FILTERS, RawItems, ListSize,
      ResolveDates, Checked, WithDefaults, MonthOverMonthQuery;
    var full := MonthOverMonthQuery(WithDefaults(q), today);
    var d, r := Read(full, today), Normalize(q, today).value;
    ReadIsNormal(full, today);
    ReadKeys(full, today);
    CheckedAgain(d, today);
    FullAgain(q, r, today);
    DatesAgain(full.range, full.future, full.start, full.end, full.historicalEnd, today);
    ReadAgain(r, ResolveDates(full.range, full.future, full.start, full.end, full.historicalEnd, today).value, today);
    hide Read, ReadError, QueryOf;
  }

  /** `normalize` is idempotent through the query of its result: for the same day, reading the
      query of a report gives the same report, whatever ranges, values, keyed filters and
      comparison it has. */
  lemma NormalizeAgain(q: Query, today: Date)
    requires today.Valid() && Normalize(q, today).Accepted?
    ensures Normalize(QueryOf(Normalize(q, today).value), today) == Normalize(q, today)
  {
    hide ReadError, Read, Checked, QueryOf, MonthOverMonthQuery, WithDefaults;
    NormalizedIsFixed(q, today);
  }
}
