/** Which reports are accepted, said rule by rule, and what the parts of a query come to mean. */
module ReportRules {
  import opened Options
  import opened Calendar
  import opened Reports
  import opened Normalization
  import Text

  // --- Days ------------------------------------------------------------------------------------

  /** The days of a range that depends on today only: full months but the running one, a number of days
      up to today or yesterday, a month or a year up to today, or all of the running month. */
  predicate InRange(range: DateRange, today: Date, d: Date) {
    match range
    case LastMonths(count) => today.month - count <= d.month < today.month
    case Last1Day => Ordinal(d) == Ordinal(today) - 1
    case Last7Days => Ordinal(today) - 7 < Ordinal(d) <= Ordinal(today)
    case Last14Days => Ordinal(today) - 14 < Ordinal(d) <= Ordinal(today)
    case ThisMonth => d.month == today.month && d.day <= today.day
    case LastMonth => d.month == today.month - 1
    case YearToDate => d.month / 12 == today.month / 12 && d.NotAfter(today)
    case CurrentMonth => d.month == today.month
    case Custom => d == today
  }

  /** Days counted back from today. */
  lemma DaysAgo(today: Date, n: int, d: Date)
    requires today.Valid() && d.Valid()
    ensures PlusDays(today, -n).NotAfter(d) <==> Ordinal(today) - n <= Ordinal(d)
    ensures d.NotAfter(PlusDays(today, -n)) <==> Ordinal(d) <= Ordinal(today) - n
  {
    PlusDaysOrdinal(today, -n);
    OrdinalOrder(d, PlusDays(today, -n));
    OrdinalOrder(PlusDays(today, -n), d);
    hide Ordinal, PlusDays;
  }

  /** A relative range covers exactly those days. */
  lemma RelativeRange(range: DateRange, today: Date, d: Date)
    requires today.Valid() && d.Valid()
    ensures
      var days := RelativeDays(range, today);
      days.0.NotAfter(d) && d.NotAfter(days.1) <==> InRange(range, today, d)
  {
    DaysAgo(today, 1, d);
    DaysAgo(today, 6, d);
    DaysAgo(today, 13, d);
    OrdinalOrder(today, d);
    hide Ordinal, PlusDays;
  }

  /** The first and last day of a report, from its range and its forecast. */
  predicate DatesHold(r: Report, today: Date)
    requires today.Valid()
  {
    && r.range.Known() && KnownFuture(r.future) && r.start.Valid() && r.historicalEnd.Valid() && r.start.NotAfter(r.historicalEnd)
    && (r.range != Custom ==> (r.start, r.historicalEnd) == RelativeDays(r.range, today))
    && (r.future == 0 ==> r.end == r.historicalEnd)
    && (r.future != 0 ==>
          && (r.end == r.historicalEnd || r.end == Last(today.month + r.future))
          && r.historicalEnd.NotAfter(r.end) && Last(today.month + r.future).NotAfter(r.end))
  }

  lemma DatesExactly(r: Report, today: Date)
    requires today.Valid()
    ensures
      var dates := Dates(r.range, r.future, r.start, r.end, r.historicalEnd);
      ResolveDates(Chosen(r.range), Chosen(r.future), On(r.start), On(r.end), On(r.historicalEnd), today) == Accepted(dates)
      <==> DatesHold(r, today)
  {
    RelativeDaysValid(r.range, today);
    hide RelativeDays;
  }

  /** No day after today but forecast, at most 18 months of it; at most 38 months of history, two years of
      it in detail. */
  predicate LimitsHold(r: Report, today: Date) {
    && r.start.NotAfter(r.end) && r.start.NotAfter(today) && r.end.NotAfter(Last(today.month + 18))
    && First(today.month - 38).NotAfter(r.start)
    && (r.granularity != Monthly ==> Ordinal(r.end) - Ordinal(r.start) <= 731 || Ordinal(today) - Ordinal(r.start) <= 731)
  }

  lemma LimitsExactly(r: Report, today: Date)
    requires today.Valid() && r.start.Valid() && r.end.Valid()
    ensures RangeError(r.start, r.end, Chosen(r.granularity), today).None? <==> LimitsHold(r, today)
  {
    OrdinalOrder(today, r.end);
    hide Ordinal;
  }

  // --- Rules across fields ----------------------------------------------------------------------

  /** Only the costs of EC2 may be reported by resource. */
  predicate ComputeOnly(r: Report) {
    Picked(r, Service) == [EC2] && Sense(r, Service) == Include
  }

  /** A key of tags or categories is used once, values need a key and exclude absence. */
  predicate KeysHold(r: Report, kind: KeyKind) {
    var key := if kind.TagKey? then Tag else CostCategory;
    var labelKey := if kind.TagKey? then r.tagKey else r.categoryKey;
    var flagged := if kind.TagKey? then r.untagged else r.uncategorized;
    && (Picked(r, key) != [] ==> labelKey != "" && !flagged)
    && (Picked(r, key) != [] || flagged ==> forall item :: item in r.keyed && item.kind == kind ==> item.key != labelKey)
  }

  predicate RulesHold(r: Report, today: Date)
    requires today.Valid()
  {
    && KeysHold(r, TagKey) && KeysHold(r, CategoryKey)
    && (r.groupBy == By(Tag) || r.groupBy == By(CostCategory) ==> r.groupKey != "")
    // Usage is of one unit: one usage type or usage type group is included.
    && (r.measure != Cost ==> OneUnit(r, UsageType) || OneUnit(r, UsageTypeGroup))
    && (r.normalized ==> r.measure != Cost)
    && (Picked(r, Resource) != [] || r.groupBy == By(Resource) ==> ComputeOnly(r))
    && (Picked(r, Resource) != [] || r.groupBy == By(Resource) || r.granularity == Hourly ==>
          PlusDays(today, -13).NotAfter(r.start) && r.end.NotAfter(today))
  }

  lemma RulesExactly(r: Report, today: Date)
    requires today.Valid()
    ensures RuleError(r, today).None? <==> RulesHold(r, today)
  {
    hide PlusDays;
    var repeated := exists item :: item in r.keyed && item.key == PrimaryKey(r, item.kind) && PrimaryUsed(r, item.kind);
    if repeated {
      var item :| item in r.keyed && item.key == PrimaryKey(r, item.kind) && PrimaryUsed(r, item.kind);
      assert !KeysHold(r, item.kind);
    }
  }

  /** The other period of a comparison report: given, the period before, or the month before last. */
  predicate ComparisonHolds(r: Report, today: Date)
    requires today.Valid() && r.start.Valid()
  {
    r.mode == Compare ==>
      && Readable(r.compareStart) && Readable(r.compareEnd)
      && var first := r.compareStart.date;
      var last := r.compareEnd.date;
      && first.NotAfter(last) && last.NotAfter(today) && First(today.month - 38).NotAfter(first)
      && (r.comparison == PreviousPeriod ==> (first, last) == Preceding(r.start, r.end))
      && (r.comparison == MonthOverMonth ==>
            r.range == LastMonth && r.granularity == Monthly && first == First(today.month - 2) && last == Last(today.month - 2))
      && (r.granularity != Monthly ==> Ordinal(last) - Ordinal(first) <= 731)
      && (Picked(r, Resource) != [] || r.groupBy == By(Resource) || r.granularity == Hourly ==> PlusDays(today, -13).NotAfter(first))
  }

  /** Month over month has set what it sets. */
  predicate MonthsSet(r: Report, today: Date) {
    r.mode == Compare && r.comparison == MonthOverMonth ==>
      && r.range == LastMonth && r.granularity == Monthly
      && r.compareStart == On(First(today.month - 2)) && r.compareEnd == On(Last(today.month - 2))
  }

  lemma ComparisonExactly(r: Report, today: Date)
    requires today.Valid() && r.start.Valid()
    ensures WithComparison(r, today) == Accepted(r) && MonthsSet(r, today) <==> ComparisonHolds(r, today)
  {
    hide PlusDays, Ordinal, Preceding;
  }

  /** Days to come are forecast: of costs, in a standard report, daily for three months at most. */
  predicate ForecastHolds(r: Report, today: Date) {
    today.Before(r.end) ==>
      r.measure == Cost && r.forecast && r.mode == Standard && (r.granularity == Daily ==> r.end.NotAfter(PlusMonths(today, 3)))
  }

  lemma ForecastExactly(r: Report, today: Date)
    ensures FutureError(r, today).None? <==> ForecastHolds(r, today)
  {
  }

  // --- All rules ----------------------------------------------------------------------------------

  /** Names are short and the report has one; the grouping is offered; every filter has its values in
      normal form and a matching, and so have the additional filters. */
  ghost predicate FieldsHold(r: Report) {
    && r.name != "" && |r.name| <= 120 && |r.groupKey| <= 120 && |r.tagKey| <= 120 && |r.categoryKey| <= 120
    && r.groupBy != By(UsageTypeGroup)
    && (forall k: FilterKey :: k in r.selected && k in r.matching && NormalValues(k, r.selected[k]))
    && NormalKeyed(r.keyed)
  }

  /** Everything a report must satisfy. */
  ghost predicate Reportable(r: Report, today: Date)
    requires today.Valid()
  {
    && FieldsHold(r) && DatesHold(r, today) && LimitsHold(r, today) && RulesHold(r, today)
    && ComparisonHolds(r, today) && ForecastHolds(r, today)
  }

  lemma AllKeys(m: set<FilterKey>)
    requires forall k: FilterKey :: k in m
    ensures m == set k | k in FILTERS
  {
    forall k: FilterKey
      ensures k in FILTERS
    {
      FiltersComplete(k);
    }
  }

  lemma DefaultsSet(r: Report, today: Date)
    ensures MonthOverMonthQuery(WithDefaults(QueryOf(r)), today) == QueryOf(r) <==> r.name != "" && MonthsSet(r, today)
  {
    hide RawItems, ListSize;
  }

  /** Whatever is accepted satisfies the rules. */
  lemma AcceptedIsReportable(q: Query, today: Date)
    requires today.Valid() && Normalize(q, today).Accepted?
    ensures Reportable(Normalize(q, today).value, today)
  {
    NormalizedIsFixed(q, today);
    FixedIsReportable(Normalize(q, today).value, today);
    hide Normalize;
  }

  lemma FixedIsReportable(r: Report, today: Date)
    requires today.Valid() && Fixed(r, today)
    ensures Reportable(r, today)
  {
    DefaultsSet(r, today);
    FixedParts(r, today);
    ReadIsNormal(QueryOf(r), today);
    FieldsRead(r, today);
    hide Fixed, QueryOf, Read, ReadError, MonthOverMonthQuery, WithDefaults, RuleError, WithComparison, FutureError, ResolveDates, RangeError;
    DatesExactly(r, today);
    LimitsExactly(r, today);
    RulesExactly(r, today);
    ComparisonExactly(r, today);
    ForecastExactly(r, today);
    hide DatesHold, LimitsHold, RulesHold, ComparisonHolds, ForecastHolds;
  }

  lemma FieldsRead(r: Report, today: Date)
    requires today.Valid() && ReadError(QueryOf(r), today).None? && Read(QueryOf(r), today) == r
    ensures ResolveDates(Chosen(r.range), Chosen(r.future), On(r.start), On(r.end), On(r.historicalEnd), today)
            == Accepted(Dates(r.range, r.future, r.start, r.end, r.historicalEnd))
    ensures RangeError(r.start, r.end, Chosen(r.granularity), today).None?
    ensures GroupOffered(r.groupBy)
    ensures |r.name| <= MAX_NAME && |r.groupKey| <= MAX_NAME && |r.tagKey| <= MAX_NAME && |r.categoryKey| <= MAX_NAME
  {
    hide ResolveDates, RangeError, KeyedFilters, FilterError, Selected, Matched, FILTERS, RawItems, ListSize;
  }

  lemma ReportableIsFixed(r: Report, today: Date)
    requires today.Valid() && Reportable(r, today)
    ensures Fixed(r, today)
  {
    DatesExactly(r, today);
    RelativeEnds(r, today);
    LimitsExactly(r, today);
    RulesExactly(r, today);
    ComparisonExactly(r, today);
    ForecastExactly(r, today);
    assert MonthsSet(r, today) by {
      hide DatesHold, LimitsHold, RulesHold, ForecastHolds, FieldsHold, Preceding, PlusDays;
    }
    DefaultsSet(r, today);
    hide DatesHold, LimitsHold, RulesHold, ComparisonHolds, ForecastHolds, QueryOf, ReadError, Read, MonthOverMonthQuery, WithDefaults,
      RuleError, WithComparison, FutureError, ResolveDates, RangeError, NormalValues, NormalKeyed;
    AllKeys(r.selected.Keys);
    AllKeys(r.matching.Keys);
    ReadAgain(r, Dates(r.range, r.future, r.start, r.end, r.historicalEnd), today);
  }

  lemma RelativeEnds(r: Report, today: Date)
    requires today.Valid() && DatesHold(r, today)
    ensures r.start.Valid() && r.end.Valid() && r.historicalEnd.Valid() && !r.end.Before(r.start)
    ensures r.range.Known() && KnownFuture(r.future)
  {
    hide RelativeDays;
  }

  /** A report is its own normal form exactly if it satisfies every rule: `normalize` refuses nothing
      else and lets nothing else through. */
  lemma ReportableExactly(r: Report, today: Date)
    requires today.Valid()
    ensures Reportable(r, today) <==> Fixed(r, today)
    ensures Reportable(r, today) <==> Normalize(QueryOf(r), today) == Accepted(r)
  {
    if Fixed(r, today) {
      FixedIsReportable(r, today);
    }
    if Reportable(r, today) {
      ReportableIsFixed(r, today);
      assert Normalize(QueryOf(r), today) == Accepted(r) by {
        hide ReadError, Read, Checked, QueryOf, MonthOverMonthQuery, WithDefaults, Reportable;
      }
    }
    hide Reportable, Fixed;
    if Normalize(QueryOf(r), today) == Accepted(r) {
      AcceptedIsReportable(QueryOf(r), today);
    }
    hide Normalize;
  }

  const BLANK: Query :=
    Query("", "", "", Missing, Missing, Blank, Blank, Blank, Missing, Missing, "", Missing, Missing, Missing, Missing, Blank, Blank,
          "", "", "", Missing, None, false, false, false, map[], map[], KeyedList([]))

  /** The report without any choice: the last six full months of costs, by service and month. */
  ghost predicate IsDefault(r: Report, today: Date) {
    && r.range == LastMonths(6) && r.start == First(today.month - 6) && r.end == Last(today.month - 1) == r.historicalEnd && r.future == 0
    && r.granularity == Monthly && r.groupBy == By(Service) && r.chart == Stacked && r.metric == CostMetric.Unblended
    && r.mode == Standard && r.measure == Cost && r.name == "Cost report" && r.forecast && !r.untagged && !r.uncategorized && !r.normalized
    && r.keyed == [] && forall k: FilterKey :: Picked(r, k) == [] && Sense(r, k) == Include
  }

  lemma DefaultDates(today: Date)
    requires today.Valid()
    ensures ResolveDates(Missing, Missing, Blank, Blank, Blank, today)
            == Accepted(Dates(LastMonths(6), 0, First(today.month - 6), Last(today.month - 1), Last(today.month - 1)))
    ensures RangeError(First(today.month - 6), Last(today.month - 1), Chosen(Monthly), today).None?
  {
    hide Ordinal;
  }

  lemma DefaultFilters(q: Query)
    requires q.filters == map[] && q.matching == map[]
    ensures FilterError(q, FILTERS).None?
    ensures forall k: FilterKey :: k in Selected(q) && k in Matched(q) && Selected(q)[k] == [] && Matched(q)[k] == Include
  {
    NoValues();
    hide Values;
    NoFilterError(q, FILTERS);
    hide FilterError;
    forall k: FilterKey
      ensures k in FILTERS
    {
      FiltersComplete(k);
    }
    hide FILTERS;
  }

  /** The fields of the query without any choice, once defaults are filled in. */
  ghost predicate DefaultQuery(q: Query) {
    && q.range == Missing && q.future == Missing && q.start == Blank && q.end == Blank && q.historicalEnd == Blank
    && q.granularity == Chosen(Monthly) && q.groupBy == Chosen(By(Service)) && q.chart == Chosen(Stacked)
    && q.metric == Chosen(CostMetric.Unblended) && q.mode == Chosen(Standard) && q.measure == Chosen(Cost) && q.comparison == Chosen(PreviousPeriod)
    && q.currency == "USD" && q.name == "Cost report" && q.groupKey == "" && q.tagKey == "" && q.categoryKey == ""
    && q.forecast == None && !q.untagged && !q.uncategorized && !q.normalized
    && q.filters == map[] && q.matching == map[] && q.keyed == KeyedList([])
  }

  lemma DefaultsFilled()
    ensures DefaultQuery(WithDefaults(BLANK))
  {
  }

  lemma DefaultReadable(q: Query, today: Date)
    requires today.Valid() && DefaultQuery(q)
    ensures ReadError(q, today).None?
  {
    DefaultDates(today);
    DefaultFilters(q);
    NoKeyed();
    hide ResolveDates, RangeError, FilterError, Selected, Matched, KeyedFilters, FILTERS;
  }

  lemma DefaultRead(q: Query, today: Date)
    requires today.Valid() && DefaultQuery(q) && ReadError(q, today).None?
    ensures IsDefault(Read(q, today), today)
  {
    hide ReadError, First, Last, ResolveDates, RangeError, FilterError, Selected, Matched, KeyedFilters, FILTERS;
    DefaultDates(today);
    DefaultFilters(q);
    NoKeyed();
  }

  lemma NoKeyed()
    ensures KeyedFilters(KeyedList([])) == Accepted([])
  {
  }

  lemma DefaultPasses(r: Report, today: Date)
    requires today.Valid() && IsDefault(r, today)
    ensures Checked(r, today) == Accepted(r)
  {
    hide PlusDays, FILTERS;
  }

  /** Without any choice the report is of the last six full months of costs, by service and month. */
  lemma DefaultReport(today: Date)
    requires today.Valid()
    ensures Normalize(BLANK, today).Accepted? && IsDefault(Normalize(BLANK, today).value, today)
  {
    var q := WithDefaults(BLANK);
    assert MonthOverMonthQuery(q, today) == q;
    DefaultsFilled();
    hide ReadError, Read, IsDefault, Checked, WithDefaults, DefaultQuery;
    DefaultReadable(q, today);
    DefaultRead(q, today);
    DefaultPasses(Read(q, today), today);
  }

  lemma NoValues()
    ensures forall k: FilterKey :: Values(k, []) == Accepted([])
  {
  }

  // --- What a report keeps of its query ----------------------------------------------------------------

  /** A choice, or what stands for none. */
  predicate Chose<T(==)>(choice: Choice<T>, fallback: T, value: T) {
    if choice.Chosen? then choice.value == value else choice.Missing? && value == fallback
  }

  /** The report has the choices of the query. */
  predicate KeepsChoices(q: Query, r: Report) {
    && Chose(q.groupBy, By(Service), r.groupBy) && Chose(q.chart, Stacked, r.chart) && Chose(q.metric, CostMetric.Unblended, r.metric)
    && Chose(q.mode, Standard, r.mode) && Chose(q.measure, Cost, r.measure)
    && Chose(q.comparison, if q.compareStart.Blank? && q.compareEnd.Blank? then PreviousPeriod else CustomComparison, r.comparison)
    && (!(r.mode == Compare && r.comparison == MonthOverMonth) ==> Chose(q.granularity, Monthly, r.granularity))
  }

  predicate KeepsTexts(q: Query, r: Report) {
    && r.customer == q.customer && r.source == q.source && (q.currency == "" || q.currency == "USD")
    && r.groupKey == q.groupKey && r.tagKey == q.tagKey && r.categoryKey == q.categoryKey
    && r.name == (if q.name == "" then "Cost report" else q.name)
    && (r.forecast <==> q.forecast != Some(false)) && r.untagged == q.untagged && r.uncategorized == q.uncategorized
    && r.normalized == q.normalized
  }

  ghost predicate KeepsFilters(q: Query, r: Report) {
    && (forall k: FilterKey ::
          && Values(k, if k in q.filters then q.filters[k] else []) == Accepted(Picked(r, k))
          && Chose(if k in q.matching then q.matching[k] else Missing, Include, Sense(r, k)))
    && KeyedFilters(q.keyed) == Accepted(r.keyed)
  }

  lemma AcceptedRead(q: Query, today: Date)
    requires today.Valid() && Normalize(q, today).Accepted?
    ensures
      var full, r := MonthOverMonthQuery(WithDefaults(q), today), Normalize(q, today).value;
      && ReadError(full, today).None?
      && r == Read(full, today).(compareStart := r.compareStart, compareEnd := r.compareEnd)
  {
    hide ReadError, Read, MonthOverMonthQuery, WithDefaults, Checked;
    var full := MonthOverMonthQuery(WithDefaults(q), today);
    ReadIsNormal(full, today);
    CheckedAgain(Read(full, today), today);
  }

  /** What reading the fields one by one gives, if none is refused. */
  lemma FieldByField(full: Query, today: Date)
    requires today.Valid() && ReadError(full, today).None?
    ensures
      var r := Read(full, today);
      && full.groupBy == Chosen(r.groupBy) && full.chart == Chosen(r.chart) && full.metric == Chosen(r.metric)
      && full.mode == Chosen(r.mode) && full.measure == Chosen(r.measure) && full.comparison == Chosen(r.comparison)
      && full.granularity == Chosen(r.granularity) && full.currency == USD
      && r.customer == full.customer && r.source == full.source && r.name == full.name
      && r.groupKey == full.groupKey && r.tagKey == full.tagKey && r.categoryKey == full.categoryKey
      && (r.forecast <==> full.forecast != Some(false)) && r.untagged == full.untagged && r.uncategorized == full.uncategorized
      && r.normalized == full.normalized
  {
    hide ResolveDates, RangeError, FilterError, KeyedFilters, Selected, Matched, FILTERS;
  }

  lemma ReadKeepsChoices(q: Query, full: Query, r: Report, today: Date)
    requires today.Valid() && full == MonthOverMonthQuery(WithDefaults(q), today) && ReadError(full, today).None?
    requires r == Read(full, today).(compareStart := r.compareStart, compareEnd := r.compareEnd)
    ensures KeepsChoices(q, r)
  {
    FieldByField(full, today);
    hide Read, ReadError;
  }

  /** The report has the days of the query: of its range, custom if both dates are given and the last six
      months if not, and of the dates of a custom range, where history may end before the forecast. */
  predicate KeepsDates(q: Query, r: Report) {
    (r.mode == Compare && r.comparison == MonthOverMonth) || (
      && Chose(q.range, if q.start != Blank && q.end != Blank then Custom else LastMonths(6), r.range)
      && Chose(q.future, 0, r.future)
      && (r.range == Custom ==>
            && q.start == On(r.start)
            && (if r.future != 0 && q.historicalEnd != Blank then q.historicalEnd else q.end) == On(r.historicalEnd)))
  }

  lemma ReadKeepsDates(q: Query, full: Query, r: Report, today: Date)
    requires today.Valid() && full == MonthOverMonthQuery(WithDefaults(q), today) && ReadError(full, today).None?
    requires r == Read(full, today).(compareStart := r.compareStart, compareEnd := r.compareEnd)
    ensures KeepsDates(q, r)
  {
    hide RelativeDays, RangeError, FilterError, KeyedFilters, Selected, Matched, FILTERS;
  }

  /** An unknown comparison range is the first thing refused. */
  lemma ComparisonRangeFirst(q: Query, today: Date)
    requires today.Valid() && q.comparison == Unknown
    ensures Normalize(q, today) == Rejected(BadComparisonRange)
  {
    hide ResolveDates, RangeError, FilterError, KeyedFilters, FILTERS;
  }

  lemma ReadKeepsTexts(q: Query, full: Query, r: Report, today: Date)
    requires today.Valid() && full == MonthOverMonthQuery(WithDefaults(q), today) && ReadError(full, today).None?
    requires r == Read(full, today).(compareStart := r.compareStart, compareEnd := r.compareEnd)
    ensures KeepsTexts(q, r)
  {
    FieldByField(full, today);
    hide Read, ReadError;
  }

  lemma ReadKeepsFilters(q: Query, full: Query, r: Report, today: Date)
    requires today.Valid() && full == MonthOverMonthQuery(WithDefaults(q), today) && ReadError(full, today).None?
    requires r == Read(full, today).(compareStart := r.compareStart, compareEnd := r.compareEnd)
    ensures KeepsFilters(q, r)
  {
    hide ResolveDates, RangeError, FilterError, KeyedFilters, Selected, Matched, FILTERS, Values;
    FiltersKept(full);
  }

  /** Field by field, the report says what its query says, with a default where it says nothing; only
      month over month overrules the range and the granularity. */
  lemma AcceptedFields(q: Query, today: Date)
    requires today.Valid() && Normalize(q, today).Accepted?
    ensures KeepsChoices(q, Normalize(q, today).value) && KeepsTexts(q, Normalize(q, today).value)
    ensures KeepsFilters(q, Normalize(q, today).value) && KeepsDates(q, Normalize(q, today).value)
  {
    AcceptedRead(q, today);
    hide Normalize, MonthOverMonthQuery, WithDefaults, ReadError, Read, KeepsChoices, KeepsTexts, KeepsFilters, KeepsDates;
    var full := MonthOverMonthQuery(WithDefaults(q), today);
    ReadKeepsChoices(q, full, Normalize(q, today).value, today);
    ReadKeepsTexts(q, full, Normalize(q, today).value, today);
    ReadKeepsFilters(q, full, Normalize(q, today).value, today);
    ReadKeepsDates(q, full, Normalize(q, today).value, today);
  }

  /** Comparison dates that are given stay, unless the report is compared with the period before or with
      the month before last. */
  lemma ComparisonKept(q: Query, today: Date)
    requires today.Valid() && Normalize(q, today).Accepted?
    requires !q.compareStart.Blank? && !q.compareEnd.Blank?
    ensures
      var r := Normalize(q, today).value;
      r.comparison == CustomComparison ==> r.compareStart == q.compareStart && r.compareEnd == q.compareEnd
  {
    hide ReadError, Checked;
    var full := MonthOverMonthQuery(WithDefaults(q), today);
    ReadIsNormal(full, today);
    var d := Read(full, today);
    assert Checked(d, today) == Accepted(Normalize(q, today).value);
    CheckedCompared(d, today);
    AcceptedRead(q, today);
    hide Normalize, ResolveDates, RangeError, FilterError, KeyedFilters, Selected, Matched, FILTERS, Values;
  }

  lemma CheckedCompared(d: Report, today: Date)
    requires today.Valid() && d.start.Valid() && Checked(d, today).Accepted?
    ensures
      var r := Checked(d, today).value;
      d.comparison == CustomComparison && !d.compareStart.Blank? && !d.compareEnd.Blank? ==>
        r.compareStart == d.compareStart && r.compareEnd == d.compareEnd
  {
    hide RuleError, FutureError, Preceding, Ordinal, PlusDays;
  }

  lemma FiltersKept(q: Query)
    requires FilterError(q, FILTERS).None?
    ensures forall k: FilterKey ::
              && k in Selected(q) && k in Matched(q)
              && Values(k, if k in q.filters then q.filters[k] else []) == Accepted(Selected(q)[k])
              && Chose(if k in q.matching then q.matching[k] else Missing, Include, Matched(q)[k])
  {
    hide Values;
    forall k: FilterKey
      ensures k in FILTERS
    {
      FiltersComplete(k);
    }
    hide FILTERS;
  }
}
