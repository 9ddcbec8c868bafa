/** The validated report contract: a parsed query becomes one normal form or an error.

    Text is modelled as parsed: a choice is missing, unknown or known; a date field is blank,
    unreadable or a date; additional filters are the decoded list. */
module Reports {
  import opened Options
  import opened Calendar
  import Text

  // --- Vocabulary --------------------------------------------------------------------------

  datatype FilterKey =
    | Service | Account | Region | InstanceType | UsageType | UsageTypeGroup | Resource | CostCategory | Tag
    | ChargeType | Az | Platform | PurchaseOption | Tenancy | DatabaseEngine | LegalEntity | BillingEntity
    | Operation | Payer

  /** Position in the display order of the filter inventory. */
  function Position(key: FilterKey): (i: nat)
    ensures i < 19
  {
    match key
    case Service => 0
    case Account => 1
    case Region => 2
    case InstanceType => 3
    case UsageType => 4
    case UsageTypeGroup => 5
    case Resource => 6
    case CostCategory => 7
    case Tag => 8
    case ChargeType => 9
    case Az => 10
    case Platform => 11
    case PurchaseOption => 12
    case Tenancy => 13
    case DatabaseEngine => 14
    case LegalEntity => 15
    case BillingEntity => 16
    case Operation => 17
    case Payer => 18
  }

  /** The filter inventory in its display order. */
  const FILTERS: seq<FilterKey> :=
    [Service, Account, Region, InstanceType, UsageType, UsageTypeGroup, Resource, CostCategory, Tag, ChargeType, Az,
     Platform, PurchaseOption, Tenancy, DatabaseEngine, LegalEntity, BillingEntity, Operation, Payer]

  lemma FiltersComplete(key: FilterKey)
    ensures |FILTERS| == 19 && FILTERS[Position(key)] == key && key in FILTERS
  {
    var f := FILTERS;
    assert f[0] == Service && f[1] == Account && f[2] == Region && f[3] == InstanceType && f[4] == UsageType;
    assert f[5] == UsageTypeGroup && f[6] == Resource && f[7] == CostCategory && f[8] == Tag && f[9] == ChargeType;
    assert f[10] == Az && f[11] == Platform && f[12] == PurchaseOption && f[13] == Tenancy && f[14] == DatabaseEngine;
    assert f[15] == LegalEntity && f[16] == BillingEntity && f[17] == Operation && f[18] == Payer;
  }

  datatype GroupBy = NoGroup | ByCustomer | By(key: FilterKey)
  datatype Granularity = Daily | Monthly | Hourly
  datatype Chart = Stacked | Line | Bar
  datatype CostMetric = Unblended | Amortized | Blended | NetUnblended | NetAmortized
  datatype Mode = Standard | Compare
  datatype Measure = Cost | Usage | CostUsage
  datatype ComparisonRange = CustomComparison | PreviousPeriod | MonthOverMonth
  datatype Matching = Include | Exclude

  datatype DateRange =
    | Last1Day | Last7Days | Last14Days | ThisMonth | LastMonth | LastMonths(count: int) | YearToDate | CurrentMonth | Custom
  {
    predicate Known() {
      LastMonths? ==> count in {3, 6, 12, 36}
    }
  }

  /** Months of forecast; zero is no forecast range. */
  type FutureRange = int

  predicate KnownFuture(count: FutureRange) {
    count in {0, 1, 3, 12, 18}
  }

  datatype Choice<T> = Missing | Unknown | Chosen(value: T)

  function Default<T>(choice: Choice<T>, fallback: T): Choice<T> {
    if choice.Missing? then Chosen(fallback) else choice
  }

  datatype DateText = Blank | Unreadable(text: string) | On(date: Date)

  predicate Readable(d: DateText) {
    d.On? && d.date.Valid()
  }

  datatype Error =
    | BadComparisonRange | BadRange | BadDates | StartAfterEnd | OutsideForecast | TooOld | TooLongForDetail | BadChoice
    | NotDollars | NameTooLong | BadValues | BadMatching | BadKeyedFilter | RepeatedKey | MissingGroupKey | MissingKey
    | ValuesAndAbsence | MixedUnits | NotUsage | NotCompute | TooOldForDetail | OneComparisonDate | BadComparisonDates
    | ComparisonInFuture | FutureUsage | FutureNotForecast | DailyForecastTooLong

  datatype Result<+T> = Accepted(value: T) | Rejected(error: Error)

  const MAX_VALUES: nat := 100
  const MAX_VALUE_LENGTH: nat := 1024
  const MAX_NAME: nat := 120
  const MAX_KEYED: nat := 20
  const MAX_KEYED_TEXT: nat := 200000
  const EMPTY_VALUE := "__billing_empty_value__"
  const EC2 := "Amazon Elastic Compute Cloud - Compute"

  // --- Dates -------------------------------------------------------------------------------

  datatype Dates = Dates(range: DateRange, future: FutureRange, start: Date, end: Date, historicalEnd: Date)

  function Later(a: Date, b: Date): Date {
    if a.Before(b) then b else a
  }

  function Earlier(a: Date, b: Date): Date {
    if b.Before(a) then b else a
  }

  /** First and last day of a range that depends on today only. */
  function RelativeDays(range: DateRange, today: Date): (Date, Date)
    requires today.Valid()
  {
    var m := today.month;
    match range
    case LastMonths(count) => (First(m - count), Last(m - 1))
    case Last1Day => (PlusDays(today, -1), PlusDays(today, -1))
    case Last7Days => (PlusDays(today, -6), today)
    case Last14Days => (PlusDays(today, -13), today)
    case ThisMonth => (First(m), today)
    case LastMonth => (First(m - 1), Last(m - 1))
    case YearToDate => (First(m - m % 12), today)
    case CurrentMonth => (First(m), Last(m))
    case Custom => (today, today)
  }

  /** `date_parameters`. */
  function ResolveDates(range: Choice<DateRange>, future: Choice<FutureRange>, start: DateText, end: DateText,
                        historicalEnd: DateText, today: Date): Result<Dates>
    requires today.Valid()
  {
    var selected := if range.Missing? then Chosen(if !start.Blank? && !end.Blank? then Custom else LastMonths(6)) else range;
    var ahead := Default(future, 0);
    if !selected.Chosen? || !selected.value.Known() || !ahead.Chosen? || !KnownFuture(ahead.value) then Rejected(BadRange)
    else
      var last := if ahead.value != 0 && !historicalEnd.Blank? then historicalEnd else end;
      if selected.value.Custom? && !(Readable(start) && Readable(last)) then Rejected(BadDates)
      else
        var days := if selected.value.Custom? then (start.date, last.date) else RelativeDays(selected.value, today);
        if days.1.Before(days.0) then Rejected(StartAfterEnd)
        else
          var until := if ahead.value != 0 then Later(days.1, Last(today.month + ahead.value)) else days.1;
          Accepted(Dates(selected.value, ahead.value, days.0, until, days.1))
  }

  lemma RelativeDaysValid(range: DateRange, today: Date)
    requires today.Valid()
    ensures RelativeDays(range, today).0.Valid() && RelativeDays(range, today).1.Valid()
  {
    PlusDaysOrdinal(today, -1);
    PlusDaysOrdinal(today, -6);
    PlusDaysOrdinal(today, -13);
  }

  /** Resolved dates resolve to themselves; and with a custom range, an end that already covers
      the forecast gives the same first and last day even when the end of history is not kept. */
  lemma DatesAgain(range: Choice<DateRange>, future: Choice<FutureRange>, start: DateText, end: DateText,
                   historicalEnd: DateText, today: Date)
    requires today.Valid() && ResolveDates(range, future, start, end, historicalEnd, today).Accepted?
    ensures
      var d := ResolveDates(range, future, start, end, historicalEnd, today).value;
      && d.start.Valid() && d.end.Valid() && d.historicalEnd.Valid() && !d.end.Before(d.start)
      && d.range.Known() && KnownFuture(d.future)
      && ResolveDates(Chosen(d.range), Chosen(d.future), On(d.start), On(d.end), On(d.historicalEnd), today) == Accepted(d)
      && ResolveDates(Chosen(d.range), Chosen(d.future), On(d.start), On(d.end), Blank, today)
         == Accepted(if d.range.Custom? then d.(historicalEnd := d.end) else d)
      && (d.future != 0 ==> today.Before(d.end))
  {
    var d := ResolveDates(range, future, start, end, historicalEnd, today).value;
    RelativeDaysValid(d.range, today);
    hide RelativeDays;
  }

  // --- Filter values -------------------------------------------------------------------------

  /** `str.isspace` of one character. */
  predicate Space(c: char) {
    var n := c as int;
    9 <= n <= 13 || 28 <= n <= 32 || n == 0x85 || n == 0xa0 || n == 0x1680 || 0x2000 <= n <= 0x200a
    || n in {0x2028, 0x2029, 0x202f, 0x205f, 0x3000}
  }

  function Strip(s: string): (r: string)
    ensures |r| <= |s|
    ensures r != "" ==> !Space(r[0]) && !Space(r[|r| - 1])
  {
    if s == "" then ""
    else if Space(s[0]) then Strip(s[1..])
    else if Space(s[|s| - 1]) then Strip(s[..|s| - 1])
    else s
  }

  function Cleaned(key: FilterKey, v: string): string {
    if key.Account? then Strip(v) else v
  }

  predicate ValuesFit(raw: seq<string>) {
    |raw| <= MAX_VALUES && forall v :: v in raw ==> |v| <= MAX_VALUE_LENGTH
  }

  /** `values`. */
  function Values(key: FilterKey, raw: seq<string>): Result<seq<string>> {
    if !ValuesFit(raw) then Rejected(BadValues)
    else Accepted(Text.Sorted(set v | v in raw && Cleaned(key, v) != "" :: Cleaned(key, v)))
  }

  /** A set whose elements all come from a list is no larger than the list. */
  lemma {:induction false} ImageSize(raw: seq<string>, image: set<string>, f: string -> string)
    requires forall x :: x in image ==> exists v :: v in raw && f(v) == x
    ensures |image| <= |raw|
  {
    if raw == [] {
      assert image == {};
    } else {
      var x := f(raw[0]);
      assert raw == [raw[0]] + raw[1..];
      ImageSize(raw[1..], image - {x}, f);
      assert image <= image - {x} + {x};
      SubsetSize(image, image - {x} + {x});
    }
  }

  lemma {:induction false} SubsetSize<T>(a: set<T>, b: set<T>)
    requires a <= b
    ensures |a| <= |b|
  {
    if a != {} {
      var x :| x in a;
      SubsetSize(a - {x}, b - {x});
    }
  }

  /** A value list in normal form: within the limits, cleaned, without empty values, ascending. */
  ghost predicate NormalValues(key: FilterKey, values: seq<string>) {
    && ValuesFit(values) && Text.Ascending(values)
    && forall v :: v in values ==> v != "" && Cleaned(key, v) == v
  }

  lemma ValuesNormal(key: FilterKey, raw: seq<string>)
    requires Values(key, raw).Accepted?
    ensures NormalValues(key, Values(key, raw).value)
  {
    ImageSize(raw, set v | v in raw && Cleaned(key, v) != "" :: Cleaned(key, v), v => Cleaned(key, v));
    forall v | v in Values(key, raw).value
      ensures |v| <= MAX_VALUE_LENGTH && v != "" && Cleaned(key, v) == v
    {
      var u :| u in raw && Cleaned(key, u) != "" && v == Cleaned(key, u);
      assert key.Account? ==> v == Strip(u) && Strip(v) == v;
    }
  }

  lemma NormalValuesAgain(key: FilterKey, values: seq<string>)
    requires NormalValues(key, values)
    ensures Values(key, values) == Accepted(values)
  {
    var s := set v | v in values && Cleaned(key, v) != "" :: Cleaned(key, v);
    forall v
      ensures v in values <==> v in s
    {
      if v in values {
        assert Cleaned(key, v) == v;
      }
    }
    Text.SortedUnique(values, s);
  }

  // --- Additional tag and category filters -------------------------------------------------------

  datatype KeyKind = TagKey | CategoryKey

  datatype Keyed = Keyed(kind: KeyKind, key: string, values: seq<string>, mode: Matching, absent: bool)

  /** A decoded list entry; a missing kind stands for any other type, field or shape. */
  datatype RawKeyed = RawKeyed(kind: Option<KeyKind>, key: string, values: seq<string>, mode: Choice<Matching>, absent: bool)

  datatype KeyedInput = KeyedList(items: seq<RawKeyed>) | KeyedText(items: seq<RawKeyed>, length: nat) | Undecodable

  /** Length of a character inside a JSON string with `ensure_ascii=False`. */
  function CharSize(c: char): nat {
    var n := c as int;
    if c == '"' || c == '\\' || n in {8, 9, 10, 12, 13} then 2 else if n < 32 then 6 else 1
  }

  function TextSize(s: string): nat {
    if s == "" then 0 else CharSize(s[0]) + TextSize(s[1..])
  }

  function ValuesSize(values: seq<string>, separator: nat): nat {
    if values == [] then 0
    else 2 + TextSize(values[0]) + (if |values| == 1 then 0 else separator) + ValuesSize(values[1..], separator)
  }

  /** `{"type":...,"key":...,"values":[...],"mode":...,"absent":...}`: five names, five colons
      and four commas; a separator is one character, or two in the default spaced form. */
  function ItemSize(item: Keyed, separator: nat): nat {
    2 + 33 + 5 * separator + 4 * separator
    + (if item.kind.TagKey? then 5 else 15)
    + 2 + TextSize(item.key)
    + 2 + ValuesSize(item.values, separator)
    + 9 + (if item.absent then 4 else 5)
  }

  function ItemsSize(items: seq<Keyed>, separator: nat): nat {
    if items == [] then 0 else ItemSize(items[0], separator) + ItemsSize(items[1..], separator)
  }

  function ListSize(items: seq<Keyed>, separator: nat): nat {
    2 + ItemsSize(items, separator) + if items == [] then 0 else separator * (|items| - 1)
  }

  const SPACED: nat := 2
  const COMPACT: nat := 1

  lemma {:induction false} CompactValuesSize(values: seq<string>)
    ensures ValuesSize(values, COMPACT) <= ValuesSize(values, SPACED)
  {
    if values != [] {
      CompactValuesSize(values[1..]);
    }
  }

  lemma {:induction false} CompactItemsSize(items: seq<Keyed>)
    ensures ItemsSize(items, COMPACT) <= ItemsSize(items, SPACED)
  {
    if items != [] {
      CompactValuesSize(items[0].values);
      CompactItemsSize(items[1..]);
    }
  }

  function EmptyNamed(v: string): string {
    if v == "" then EMPTY_VALUE else v
  }

  /** One entry, or None when it is refused. */
  function ParseKeyed(raw: RawKeyed): Option<Keyed> {
    var mode := Default(raw.mode, Include);
    if raw.kind.None? || raw.key == "" || |raw.key| > MAX_NAME || !mode.Chosen? || !ValuesFit(raw.values) then None
    else
      var values := Text.Sorted(set v | v in raw.values :: EmptyNamed(v));
      if values != [] && raw.absent then None
      else Some(Keyed(raw.kind.value, raw.key, values, mode.value, raw.absent))
  }

  predicate Same(a: Keyed, b: Keyed) {
    a.kind == b.kind && a.key == b.key
  }

  /** The entries in order, or None at the first refused or repeated one. */
  function ParseAll(items: seq<RawKeyed>): Option<seq<Keyed>> {
    if items == [] then Some([])
    else
      var before := ParseAll(items[..|items| - 1]);
      var last := ParseKeyed(items[|items| - 1]);
      if before.None? || last.None? || exists k :: k in before.value && Same(k, last.value) then None
      else Some(before.value + [last.value])
  }

  /** Order of `(type, key)`: "cost_category" comes before "tag". */
  predicate KeyedLess(a: Keyed, b: Keyed) {
    if a.kind == b.kind then Text.Less(a.key, b.key) else a.kind.CategoryKey?
  }

  function InsertKeyed(x: Keyed, s: seq<Keyed>): seq<Keyed> {
    if s == [] || KeyedLess(x, s[0]) then [x] + s else [s[0]] + InsertKeyed(x, s[1..])
  }

  function SortKeyed(s: seq<Keyed>): seq<Keyed> {
    if s == [] then [] else InsertKeyed(s[0], SortKeyed(s[1..]))
  }

  /** `keyed_filters`. */
  function KeyedFilters(input: KeyedInput): Result<seq<Keyed>> {
    if input.Undecodable? || (input.KeyedText? && input.length > MAX_KEYED_TEXT) || |input.items| > MAX_KEYED then Rejected(BadKeyedFilter)
    else
      var parsed := ParseAll(input.items);
      if parsed.None? || ListSize(parsed.value, SPACED) > MAX_KEYED_TEXT then Rejected(BadKeyedFilter)
      else Accepted(SortKeyed(parsed.value))
  }

  /** The loop of `keyed_filters` with its set of keys seen. */
  method ReadKeyed(items: seq<RawKeyed>) returns (result: Option<seq<Keyed>>)
    ensures result == ParseAll(items)
  {
    hide ParseKeyed, ParseAll;
    NothingParsed();
    var read: seq<Keyed> := [];
    var seen: set<(KeyKind, string)> := {};
    for i := 0 to |items|
      invariant ParseAll(items[..i]) == Some(read)
      invariant forall kind, key :: (kind, key) in seen <==> exists k :: k in read && k.kind == kind && k.key == key
    {
      ParseNext(items, i);
      var item := ParseKeyed(items[i]);
      if item.None? || (item.value.kind, item.value.key) in seen {
        RefusedPrefix(items, i + 1);
        return None;
      }
      seen := seen + {(item.value.kind, item.value.key)};
      read := read + [item.value];
    }
    assert items[..|items|] == items;
    result := Some(read);
  }

  lemma NothingParsed()
    ensures ParseAll([]) == Some([])
  {
  }

  lemma ParseNext(items: seq<RawKeyed>, i: nat)
    requires i < |items|
    ensures
      var before, last := ParseAll(items[..i]), ParseKeyed(items[i]);
      ParseAll(items[..i + 1]) ==
      if before.None? || last.None? || exists k :: k in before.value && Same(k, last.value) then None
      else Some(before.value + [last.value])
  {
    assert items[..i + 1][..i] == items[..i];
    hide ParseKeyed, Same;
  }

  lemma {:induction false} RefusedPrefix(items: seq<RawKeyed>, n: nat)
    requires n <= |items| && ParseAll(items[..n]).None?
    ensures ParseAll(items).None?
  {
    if n < |items| {
      assert items[..|items| - 1][..n] == items[..n];
      RefusedPrefix(items[..|items| - 1], n);
    } else {
      assert items[..n] == items;
    }
  }

  // Normal form of the additional filters.

  ghost predicate NormalKeyedItem(k: Keyed) {
    && k.key != "" && |k.key| <= MAX_NAME
    && ValuesFit(k.values) && Text.Ascending(k.values) && "" !in k.values
    && (k.absent ==> k.values == [])
  }

  ghost predicate AscendingKeyed(s: seq<Keyed>) {
    forall i, j :: 0 <= i < j < |s| ==> KeyedLess(s[i], s[j])
  }

  ghost predicate NormalKeyed(s: seq<Keyed>) {
    && |s| <= MAX_KEYED && AscendingKeyed(s) && (forall k :: k in s ==> NormalKeyedItem(k))
    && ListSize(s, SPACED) <= MAX_KEYED_TEXT
  }

  lemma KeyedOrder(a: Keyed, b: Keyed, c: Keyed)
    ensures KeyedLess(a, b) || KeyedLess(b, a) || Same(a, b)
    ensures !(KeyedLess(a, b) && KeyedLess(b, a)) && !(KeyedLess(a, b) && Same(a, b))
    ensures KeyedLess(a, b) && KeyedLess(b, c) ==> KeyedLess(a, c)
  {
    Text.Trichotomy(a.key, b.key);
    if a.kind == b.kind == c.kind && Text.Less(a.key, b.key) && Text.Less(b.key, c.key) {
      Text.Transitive(a.key, b.key, c.key);
    }
  }

  lemma {:induction false} InsertedKeyed(x: Keyed, s: seq<Keyed>)
    requires AscendingKeyed(s) && forall k :: k in s ==> !Same(k, x)
    ensures AscendingKeyed(InsertKeyed(x, s))
    ensures forall k :: k in InsertKeyed(x, s) <==> k == x || k in s
    ensures |InsertKeyed(x, s)| == |s| + 1
    ensures forall separator :: ItemsSize(InsertKeyed(x, s), separator) == ItemSize(x, separator) + ItemsSize(s, separator)
  {
    if s == [] {
    } else if KeyedLess(x, s[0]) {
      forall i | 0 < i < |s|
        ensures KeyedLess(x, s[i])
      {
        KeyedOrder(x, s[0], s[i]);
      }
    } else {
      var rest := InsertKeyed(x, s[1..]);
      InsertedKeyed(x, s[1..]);
      assert s[0] in s;
      KeyedOrder(x, s[0], s[0]);
      hide KeyedLess;
      forall i | 0 <= i < |rest|
        ensures KeyedLess(s[0], rest[i])
      {
        assert rest[i] in rest;
        if rest[i] != x {
          var j :| 0 <= j < |s[1..]| && s[1..][j] == rest[i];
          assert s[j + 1] == rest[i];
        }
      }
    }
  }

  ghost predicate DistinctKeyed(s: seq<Keyed>) {
    forall i, j :: 0 <= i < j < |s| ==> !Same(s[i], s[j])
  }

  lemma {:induction false} SortedKeyed(s: seq<Keyed>)
    requires DistinctKeyed(s)
    ensures AscendingKeyed(SortKeyed(s))
    ensures forall k :: k in SortKeyed(s) <==> k in s
    ensures |SortKeyed(s)| == |s|
    ensures forall separator :: ItemsSize(SortKeyed(s), separator) == ItemsSize(s, separator)
  {
    if s != [] {
      SortedKeyed(s[1..]);
      assert forall k :: k in s[1..] ==> !Same(k, s[0]);
      InsertedKeyed(s[0], SortKeyed(s[1..]));
    }
  }

  lemma {:induction false} SortKeyedAgain(s: seq<Keyed>)
    requires AscendingKeyed(s)
    ensures SortKeyed(s) == s
  {
    if s != [] {
      SortKeyedAgain(s[1..]);
      assert |s| > 1 ==> s[1..][0] == s[1];
    }
  }

  lemma {:induction false} ParsedItems(items: seq<RawKeyed>)
    requires ParseAll(items).Some?
    ensures |ParseAll(items).value| == |items| && DistinctKeyed(ParseAll(items).value)
    ensures forall k :: k in ParseAll(items).value ==> NormalKeyedItem(k)
  {
    if items != [] {
      ParsedItems(items[..|items| - 1]);
      var raw := items[|items| - 1];
      ImageSize(raw.values, set v | v in raw.values :: EmptyNamed(v), EmptyNamed);
    }
  }

  lemma KeyedNormal(input: KeyedInput)
    requires KeyedFilters(input).Accepted?
    ensures NormalKeyed(KeyedFilters(input).value)
  {
    ParsedItems(input.items);
    SortedKeyed(ParseAll(input.items).value);
  }

  // --- Normal additional filters are their own normal form -----------------------------------------

  function RawOf(k: Keyed): RawKeyed {
    RawKeyed(Some(k.kind), k.key, k.values, Chosen(k.mode), k.absent)
  }

  function RawItems(s: seq<Keyed>): (raw: seq<RawKeyed>)
    ensures |raw| == |s|
  {
    seq(|s|, i requires 0 <= i < |s| => RawOf(s[i]))
  }

  lemma ParsedAgain(k: Keyed)
    requires NormalKeyedItem(k)
    ensures ParseKeyed(RawOf(k)) == Some(k)
  {
    Text.SortedUnique(k.values, set v | v in k.values :: EmptyNamed(v));
  }

  lemma NotRepeated(s: seq<Keyed>, n: nat)
    requires DistinctKeyed(s) && n < |s|
    ensures !exists k :: k in s[..n] && Same(k, s[n])
  {
    hide Same;
  }

  lemma RawFront(s: seq<Keyed>)
    requires s != []
    ensures
      var n := |s| - 1;
      RawItems(s)[..n] == RawItems(s[..n]) && RawItems(s)[n] == RawOf(s[n]) && RawItems(s)[..n + 1] == RawItems(s)
  {
    hide RawOf;
  }

  lemma {:induction false} AllParsedAgain(s: seq<Keyed>)
    requires DistinctKeyed(s) && forall k :: k in s ==> NormalKeyedItem(k)
    ensures ParseAll(RawItems(s)) == Some(s)
  {
    hide ParseKeyed, ParseAll, NormalKeyedItem, RawOf, RawItems, Same;
    if s == [] {
      NothingParsed();
      assert RawItems(s) == [];
    } else {
      var n := |s| - 1;
      RawFront(s);
      AllParsedAgain(s[..n]);
      assert s[n] in s;
      ParsedAgain(s[n]);
      NotRepeated(s, n);
      ParseNext(RawItems(s), n);
      assert s[..n] + [s[n]] == s;
    }
  }

  lemma AscendingDistinct(s: seq<Keyed>)
    requires AscendingKeyed(s)
    ensures DistinctKeyed(s)
  {
    forall i, j | 0 <= i < j < |s|
      ensures !Same(s[i], s[j])
    {
      KeyedOrder(s[i], s[j], s[j]);
    }
  }

  /** A normal list, decoded from its own compact text or given as a list, is accepted as it is. */
  lemma KeyedAgain(s: seq<Keyed>)
    requires NormalKeyed(s)
    ensures KeyedFilters(KeyedList(RawItems(s))) == Accepted(s)
    ensures KeyedFilters(KeyedText(RawItems(s), ListSize(s, COMPACT))) == Accepted(s)
  {
    AscendingDistinct(s);
    AllParsedAgain(s);
    SortKeyedAgain(s);
    CompactItemsSize(s);
  }
}
