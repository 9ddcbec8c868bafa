/** Exactly which exported reports come back from their console link with the same AWS request. */
module ConsoleExact {
  import opened Options
  import opened Calendar
  import opened Reports
  import opened Normalization
  import opened Console
  import opened ConsoleRoundTrip
  import Text

  /** What a caller can see of a report before exporting it: it does not ask for usage alone, for
      the absence of one key, or for untagged costs beside the values of an additional tag key. */
  predicate ComesBack(r: Report) {
    && !r.measure.Usage?
    && (forall k :: k in r.keyed ==> !k.absent)
    && (r.untagged ==> r.tagKey == "" && forall k :: k in r.keyed ==> !Active(k))
  }

  // --- What an imported link can ask for ---------------------------------------------------------

  predicate Filled(filters: seq<LinkFilter>) {
    forall f :: f in filters ==> f.values != []
  }

  lemma {:induction false} NamedFull(values: seq<string>)
    ensures |Named(values)| == |values| && "" !in Named(values)
  {
    if values != [] {
      NamedFull(values[1..]);
    }
  }

  lemma {:induction false} PlainFull(values: seq<string>)
    ensures |Plain(values)| == |values|
  {
    if values != [] {
      PlainFull(values[1..]);
    }
  }

  /** No additional filter read from a link is one of absence, any tag filter gives the primary
      tag its key and values, and no category filter is read. */
  ghost predicate NoAbsenceRead(s: Imported) {
    && s.matching.Keys == s.selected.Keys && CostCategory !in s.selected
    && (forall a :: a in s.additional ==> !a.absent)
    && (if Tag in s.selected then s.selected[Tag] != [] && "" !in s.selected[Tag] else s.tagKey == "")
  }

  lemma FilterReads(s: Imported, f: LinkFilter)
    requires NoAbsenceRead(s) && f.values != [] && ImportFilter(s, f).Linked?
    ensures NoAbsenceRead(ImportFilter(s, f).value)
    ensures Tag in s.selected || f.dimension == Some(Tag) ==> Tag in ImportFilter(s, f).value.selected
  {
    NamedFull(f.values);
  }

  lemma {:induction false} LinkReads(filters: seq<LinkFilter>)
    requires Filled(filters) && ImportFilters(filters).Linked?
    ensures NoAbsenceRead(ImportFilters(filters).value)
    ensures (exists f :: f in filters && f.dimension == Some(Tag)) ==> Tag in ImportFilters(filters).value.selected
  {
    hide ImportFilter, NoAbsenceRead;
    if filters == [] {
      NothingReads();
    } else {
      var front, last := filters[..|filters| - 1], filters[|filters| - 1];
      assert filters == front + [last];
      LinkReads(front);
      FilterReads(ImportFilters(front).value, last);
    }
  }

  lemma NothingReads()
    ensures NoAbsenceRead(NOTHING)
  {
  }

  lemma {:induction false} PrimaryFilled(r: Report, keys: seq<FilterKey>)
    ensures Filled(ExportPrimary(r, keys))
  {
    hide Picked, Sense;
    if keys != [] {
      PrimaryFilled(r, keys[..|keys| - 1]);
      PlainFull(Picked(r, keys[|keys| - 1]));
    }
  }

  lemma {:induction false} KeyedFilled(items: seq<Keyed>)
    ensures Filled(ExportKeyed(items))
    ensures (forall k :: k in items && Active(k) ==> k.kind.TagKey?) ==>
              forall k :: k in items && Active(k) ==> exists f :: f in ExportKeyed(items) && f.dimension == Some(Tag)
  {
    if items != [] {
      var front, last := items[..|items| - 1], items[|items| - 1];
      assert items == front + [last];
      KeyedFilled(front);
      PlainFull(last.values);
      if Active(last) {
        assert ExportItem(last) in ExportKeyed(items);
      }
    }
  }

  lemma ExportFilled(r: Report)
    requires forall k :: k in r.keyed && Active(k) ==> k.kind.TagKey?
    ensures Filled(ExportFilters(r))
    ensures (exists k :: k in r.keyed && Active(k)) ==> exists f :: f in ExportFilters(r) && f.dimension == Some(Tag)
  {
    PrimaryFilled(r, FILTERS);
    KeyedFilled(r.keyed);
    hide FILTERS, ExportPrimary, ExportKeyed, Active;
    if k :| k in r.keyed && Active(k) {
      var f :| f in ExportKeyed(r.keyed) && f.dimension == Some(Tag);
      assert f in ExportFilters(r);
    }
  }

  // --- What the imported report asks for ------------------------------------------------------------

  lemma {:induction false} ParsedPresent(items: seq<RawKeyed>)
    requires ParseAll(items).Some? && forall a :: a in items ==> !a.absent
    ensures forall k :: k in ParseAll(items).value ==> !k.absent
  {
    if items != [] {
      ParsedPresent(items[..|items| - 1]);
      assert items[|items| - 1] in items;
    }
  }

  lemma KeyedPresent(items: seq<RawKeyed>)
    requires KeyedFilters(KeyedList(items)).Accepted? && forall a :: a in items ==> !a.absent
    ensures forall k :: k in KeyedFilters(KeyedList(items)).value ==> !k.absent
  {
    ParsedItems(items);
    ParsedPresent(items);
    SortedKeyed(ParseAll(items).value);
  }

  lemma ValuesPicked(values: seq<string>)
    requires Values(Tag, values).Accepted? && values != [] && "" !in values
    ensures Values(Tag, values).value != []
  {
    assert values[0] in values && Cleaned(Tag, values[0]) == values[0];
    assert values[0] in Values(Tag, values).value;
  }

  /** The steps of a successful import. */
  lemma ImportParts(r: Report, today: Date) returns (s: Imported)
    requires today.Valid() && Import(LinkOf(r), today).Linked?
    ensures ImportFilters(ExportFilters(r)) == Linked(s)
    ensures
      var q := ImportedQuery(r, s, today);
      ReadError(q, today).None? && Read(q, today).start.Valid() && Checked(Read(q, today), today) == Accepted(Import(LinkOf(r), today).value)
  {
    hide ImportFilters, ExportFilters, ReadError, Read, Checked, WithDefaults, MonthOverMonthQuery, QueryOfLink, Normal;
    s := ImportFilters(LinkOf(r).filters).value;
    assert LinkOf(r).filters == ExportFilters(r);
    hide LinkOf;
    ReadIsNormal(ImportedQuery(r, s, today), today);
    assert Normalize(QueryOfLink(LinkOf(r), s), today) == Accepted(Import(LinkOf(r), today).value);
    hide Import;
    var q := ImportedQuery(r, s, today);
    assert ReadAndCheck(q, today).Accepted?;
    NormalStart(q, today);
  }

  lemma NormalStart(q: Query, today: Date)
    requires today.Valid() && ReadError(q, today).None?
    ensures Read(q, today).start.Valid()
  {
    ReadIsNormal(q, today);
    hide ReadError, Read;
  }

  /** Fields of the imported query that no other part of the link touches. */
  lemma ImportedFields(r: Report, s: Imported, today: Date)
    requires today.Valid()
    ensures
      var q := ImportedQuery(r, s, today);
      && q.filters == s.selected && q.matching.Keys == s.matching.Keys && q.keyed == KeyedList(s.additional) && q.tagKey == s.tagKey && q.categoryKey == ""
      && q.untagged == (r.untagged && r.tagKey == "") && q.uncategorized == (r.uncategorized && r.categoryKey == "")
      && q.measure == Chosen(if r.measure.Cost? then Cost else CostUsage)
  {
    hide ExportFilters, ImportGroup;
  }

  lemma ReadTag(q: Query, today: Date)
    requires today.Valid() && ReadError(q, today).None?
    ensures Values(Tag, ValuesOf(q.filters, Tag)).Accepted? && Picked(Read(q, today), Tag) == Values(Tag, ValuesOf(q.filters, Tag)).value
    ensures KeyedFilters(q.keyed).Accepted? && Read(q, today).keyed == KeyedFilters(q.keyed).value
    ensures q.measure.Chosen? && Read(q, today).measure == q.measure.value
    ensures Read(q, today).tagKey == q.tagKey && Read(q, today).untagged == q.untagged
  {
    FiltersComplete(Tag);
    hide Values, FILTERS, FilterError, ResolveDates, RangeError, KeyedFilters;
  }

  /** The absence of any key may be asked for, but never the absence of one key; untagged costs
      are never combined with tag values. */
  lemma ImportedReport(r: Report, today: Date)
    requires today.Valid() && Import(LinkOf(r), today).Linked?
    requires forall k :: k in r.keyed && Active(k) ==> k.kind.TagKey?
    ensures
      var b := Import(LinkOf(r), today).value;
      && (forall k :: k in b.keyed ==> !k.absent)
      && (b.untagged ==> b.tagKey == "" && forall k :: k in r.keyed ==> !Active(k))
      && b.untagged == (r.untagged && r.tagKey == "")
      && (r.measure.Usage? ==> b.measure.CostUsage?)
  {
    hide Import, LinkOf, ImportFilters, ExportFilters, ReadError, Read, Checked, ImportedQuery, Picked, Values, KeyedFilters, Active, RuleError;
    var b := Import(LinkOf(r), today).value;
    var s := ImportParts(r, today);
    var q := ImportedQuery(r, s, today);
    var d := Read(q, today);
    ExportFilled(r);
    LinkReads(ExportFilters(r));
    ImportedFields(r, s, today);
    ReadTag(q, today);
    KeyedPresent(s.additional);
    CheckedAgain(d, today);
    CheckedRules(d, today);
    if Tag in s.selected {
      ValuesPicked(s.selected[Tag]);
    }
    UntaggedAlone(d, today);
  }

  lemma CheckedRules(d: Report, today: Date)
    requires today.Valid() && d.start.Valid() && Checked(d, today).Accepted?
    ensures RuleError(d, today).None?
  {
    hide RuleError, WithComparison;
  }

  lemma UntaggedAlone(d: Report, today: Date)
    requires today.Valid() && RuleError(d, today).None?
    ensures d.untagged ==> Picked(d, Tag) == []
  {
    hide Picked, PlusDays, PrimaryKey, PrimaryUsed;
  }

  // --- Conjuncts of absence ---------------------------------------------------------------------------

  predicate NamedAbsence(c: Conjunct) {
    c.term.Absent? && c.term.kind.TagKey? && c.term.name.Some?
  }

  lemma {:induction false} PrimaryConjuncts(r: Report, keys: seq<FilterKey>, c: Conjunct)
    ensures c in PrimaryParts(r, keys) <==> exists k :: k in keys && c in PrimaryPart(r, k)
  {
    hide PrimaryPart;
    if keys != [] {
      var front, last := keys[..|keys| - 1], keys[|keys| - 1];
      assert keys == front + [last];
      PrimaryConjuncts(r, front, c);
    }
  }

  lemma {:induction false} KeyedConjuncts(items: seq<Keyed>, c: Conjunct)
    ensures c in KeyedParts(items) <==> exists k :: k in items && Active(k) && c == KeyedPart(k)
  {
    hide KeyedPart, Active;
    if items != [] {
      assert items == [items[0]] + items[1..];
      KeyedConjuncts(items[1..], c);
    }
  }

  lemma NamedInPart(r: Report, key: FilterKey, c: Conjunct)
    ensures c in PrimaryPart(r, key) && NamedAbsence(c) ==> key.Tag? && r.untagged && r.tagKey != ""
    ensures r.untagged && r.tagKey != "" && key.Tag? ==>
              c == Conjunct(Sense(r, Tag) == Exclude, Absent(TagKey, Some(r.tagKey))) ==> c in PrimaryPart(r, key)
  {
    hide Picked, Sense, Plain;
  }

  /** Which reports ask for the absence of one tag key. */
  lemma AsksForNamedAbsence(r: Report)
    requires forall k :: k in r.keyed && k.absent ==> k.kind.TagKey?
    ensures (exists c :: c in Expression(r) && NamedAbsence(c)) <==>
            (r.untagged && r.tagKey != "") || exists k :: k in r.keyed && k.absent
  {
    hide PrimaryParts, KeyedParts, PrimaryPart, Plain, Sense, FILTERS;
    if c :| c in Expression(r) && NamedAbsence(c) {
      PrimaryConjuncts(r, FILTERS, c);
      KeyedConjuncts(r.keyed, c);
      if key :| key in FILTERS && c in PrimaryPart(r, key) {
        NamedInPart(r, key, c);
      }
    }
    if r.untagged && r.tagKey != "" {
      var c := Conjunct(Sense(r, Tag) == Exclude, Absent(TagKey, Some(r.tagKey)));
      NamedInPart(r, Tag, c);
      FiltersComplete(Tag);
      PrimaryConjuncts(r, FILTERS, c);
      assert c in Expression(r) && NamedAbsence(c);
    }
    if k :| k in r.keyed && k.absent {
      KeyedConjuncts(r.keyed, KeyedPart(k));
      assert KeyedPart(k) in Expression(r) && NamedAbsence(KeyedPart(k));
    }
  }

  lemma SameConjuncts(a: Report, b: Report)
    requires a.end.Valid() && b.end.Valid() && SameRequest(AwsRequest(a), AwsRequest(b))
    ensures forall c :: c in Expression(a) <==> c in Expression(b)
    ensures a.measure.Usage? == b.measure.Usage?
  {
    var x, y := AwsRequest(a).filter, AwsRequest(b).filter;
    assert multiset(x) == multiset(y);
    assert forall c :: c in x <==> c in multiset(x);
    assert forall c :: c in y <==> c in multiset(y);
    hide Expression, RequestGroupOf, PlusDays, ByResource;
  }

  /** A report that cannot come back does not. */
  lemma Lost(r: Report, today: Date)
    requires today.Valid() && r.end.Valid() && !ComesBack(r)
    requires forall k :: k in r.keyed && Active(k) ==> k.kind.TagKey?
    ensures
      var imported := Import(LinkOf(r), today);
      !(imported.Linked? && imported.value.end.Valid() && SameRequest(AwsRequest(imported.value), AwsRequest(r)))
  {
    hide Import, LinkOf, AwsRequest, SameRequest, Expression, NamedAbsence;
    var imported := Import(LinkOf(r), today);
    if imported.Linked? && imported.value.end.Valid() && SameRequest(AwsRequest(imported.value), AwsRequest(r)) {
      ImportedReport(r, today);
      SameConjuncts(imported.value, r);
      AsksForNamedAbsence(r);
      AsksForNamedAbsence(imported.value);
      assert false;
    }
  }

  // --- Reports of untagged or uncategorized costs ---------------------------------------------------------

  function Unflagged(r: Report): Report {
    r.(untagged := false, uncategorized := false)
  }

  function Flagged(r: Report, untagged: bool, uncategorized: bool): Report {
    r.(untagged := untagged, uncategorized := uncategorized)
  }

  /** What the absence of any key needs of a report. */
  predicate MayBeFlagged(d: Report, untagged: bool, uncategorized: bool) {
    && (untagged ==> Picked(d, Tag) == [] && d.tagKey == "" && Sense(d, Tag) == Include)
    && (uncategorized ==> Picked(d, CostCategory) == [] && d.categoryKey == "" && Sense(d, CostCategory) == Include)
    && forall k :: k in d.keyed ==> k.key != ""
  }

  lemma FlaggedRules(d: Report, untagged: bool, uncategorized: bool, today: Date)
    requires today.Valid() && RuleError(d, today).None? && !d.untagged && !d.uncategorized && MayBeFlagged(d, untagged, uncategorized)
    ensures RuleError(Flagged(d, untagged, uncategorized), today).None?
  {
    hide PlusDays;
  }

  lemma UnflaggedRules(r: Report, today: Date)
    requires today.Valid() && RuleError(r, today).None?
    ensures RuleError(Unflagged(r), today).None?
  {
    hide PlusDays;
  }

  lemma SameComparison(r: Report, untagged: bool, uncategorized: bool, today: Date)
    requires today.Valid() && r.start.Valid()
    ensures
      var compared, flagged := WithComparison(r, today), WithComparison(Flagged(r, untagged, uncategorized), today);
      if compared.Accepted? then flagged == Accepted(Flagged(compared.value, untagged, uncategorized)) else flagged == compared
  {
    hide Preceding, PlusDays, Ordinal;
  }

  lemma SameFuture(r: Report, untagged: bool, uncategorized: bool, today: Date)
    ensures FutureError(Flagged(r, untagged, uncategorized), today) == FutureError(r, today)
  {
    hide PlusMonths;
  }

  lemma FlaggedChecked(d: Report, untagged: bool, uncategorized: bool, today: Date)
    requires today.Valid() && d.start.Valid() && Checked(d, today).Accepted?
    requires RuleError(Flagged(d, untagged, uncategorized), today).None?
    ensures Checked(Flagged(d, untagged, uncategorized), today) == Accepted(Flagged(Checked(d, today).value, untagged, uncategorized))
  {
    hide RuleError, WithComparison, FutureError;
    SameComparison(d, untagged, uncategorized, today);
    SameFuture(WithComparison(d, today).value, untagged, uncategorized, today);
  }

  function WithFlags(q: Query, untagged: bool, uncategorized: bool): Query {
    q.(untagged := untagged, uncategorized := uncategorized)
  }

  lemma DefaultFlags(q: Query, untagged: bool, uncategorized: bool)
    ensures WithDefaults(WithFlags(q, untagged, uncategorized)) == WithFlags(WithDefaults(q), untagged, uncategorized)
  {
  }

  lemma MonthOverMonthFlags(q: Query, untagged: bool, uncategorized: bool, today: Date)
    ensures MonthOverMonthQuery(WithFlags(q, untagged, uncategorized), today) == WithFlags(MonthOverMonthQuery(q, today), untagged, uncategorized)
  {
  }

  lemma FlaggedDefaults(q: Query, untagged: bool, uncategorized: bool, today: Date)
    ensures MonthOverMonthQuery(WithDefaults(WithFlags(q, untagged, uncategorized)), today)
            == WithFlags(MonthOverMonthQuery(WithDefaults(q), today), untagged, uncategorized)
  {
    DefaultFlags(q, untagged, uncategorized);
    MonthOverMonthFlags(WithDefaults(q), untagged, uncategorized, today);
    hide WithDefaults, WithFlags, MonthOverMonthQuery;
  }

  lemma FlaggedReadError(q: Query, untagged: bool, uncategorized: bool, today: Date)
    requires today.Valid()
    ensures ReadError(WithFlags(q, untagged, uncategorized), today) == ReadError(q, today)
  {
    FlaggedFilters(q, untagged, uncategorized);
    hide Values, ResolveDates, RangeError, KeyedFilters, FilterError, FILTERS, Selected, Matched;
  }

  /** Reading a query copies its two flags and looks at them nowhere else. */
  lemma FlaggedRead(q: Query, untagged: bool, uncategorized: bool, today: Date)
    requires today.Valid() && ReadError(q, today).None?
    ensures ReadError(WithFlags(q, untagged, uncategorized), today).None?
    ensures Read(WithFlags(q, untagged, uncategorized), today) == Flagged(Read(q, today), untagged, uncategorized)
  {
    FlaggedReadError(q, untagged, uncategorized, today);
    FlaggedFilters(q, untagged, uncategorized);
    hide Values, ResolveDates, RangeError, KeyedFilters, FilterError, FILTERS, Selected, Matched;
  }

  lemma {:induction false} FlaggedFilterError(q: Query, untagged: bool, uncategorized: bool, keys: seq<FilterKey>)
    ensures FilterError(WithFlags(q, untagged, uncategorized), keys) == FilterError(q, keys)
  {
    hide Values;
    if keys != [] {
      FlaggedFilterError(q, untagged, uncategorized, keys[1..]);
    }
  }

  lemma FlaggedFilters(q: Query, untagged: bool, uncategorized: bool)
    ensures
      var p := WithFlags(q, untagged, uncategorized);
      && FilterError(p, FILTERS) == FilterError(q, FILTERS)
      && (FilterError(q, FILTERS).None? ==> Selected(p) == Selected(q) && Matched(p) == Matched(q))
  {
    FlaggedFilterError(q, untagged, uncategorized, FILTERS);
    hide Values, FILTERS, FilterError;
  }

  lemma UnflaggedFixed(r: Report, today: Date)
    requires today.Valid() && Fixed(r, today)
    ensures Fixed(Unflagged(r), today)
  {
    FixedParts(r, today);
    UnflaggedRules(r, today);
    FlaggedChecked(r, false, false, today);
    FlaggedDefaults(QueryOf(r), false, false, today);
    FlaggedRead(QueryOf(r), false, false, today);
    hide RuleError, Checked, ReadError, Read, WithDefaults, MonthOverMonthQuery;
    assert QueryOf(Unflagged(r)) == WithFlags(QueryOf(r), false, false);
  }

  lemma UnflaggedExports(r: Report, today: Date)
    requires today.Valid() && ExportError(r, today).None? && ComesBack(r)
    ensures ExportError(Unflagged(r), today).None? && NoAbsence(Unflagged(r)) && !Unflagged(r).measure.Usage?
  {
    SameFilters(r);
    hide Picked, Sense, Active;
  }

  lemma SameFilters(r: Report)
    ensures forall k: FilterKey :: Picked(Unflagged(r), k) == Picked(r, k) && Sense(Unflagged(r), k) == Sense(r, k)
  {
  }

  lemma UnflaggedHanded(r: Report, today: Date)
    requires today.Valid() && Fixed(r, today) && ExportError(r, today).None? && ComesBack(r)
    ensures Handed(Unflagged(r), today)
  {
    UnflaggedFixed(r, today);
    UnflaggedExports(r, today);
    FixedIsNormal(Unflagged(r), today);
    hide Fixed, Normal, ExportError, NoAbsence, ComesBack;
  }

  /** The link of a flagged report is the link of the plain one with the flags set. */
  lemma FlaggedLink(r: Report, today: Date)
    requires today.Valid() && ExportError(r, today).None? && ComesBack(r)
    ensures LinkOf(r) == LinkOf(Unflagged(r)).(untagged := r.untagged, uncategorized := r.uncategorized)
  {
    SameExport(r, FILTERS);
    hide FILTERS, ExportPrimary, ExportKeyed, Picked, Sense;
    assert ExportAbsence(r) == [] && ExportAbsence(Unflagged(r)) == [];
  }

  lemma {:induction false} SameExport(r: Report, keys: seq<FilterKey>)
    ensures ExportPrimary(Unflagged(r), keys) == ExportPrimary(r, keys)
  {
    if keys != [] {
      SameExport(r, keys[..|keys| - 1]);
    }
  }

  lemma FlaggedQuery(r: Report, s: Imported, today: Date)
    requires today.Valid() && LinkOf(r) == LinkOf(Unflagged(r)).(untagged := r.untagged, uncategorized := r.uncategorized)
    ensures ImportedQuery(r, s, today) == WithFlags(ImportedQuery(Unflagged(r), s, today), r.untagged, r.uncategorized)
  {
    var link := LinkOf(Unflagged(r));
    QueryFlags(link, s, r.untagged, r.uncategorized);
    FlaggedDefaults(QueryOfLink(link, s), r.untagged, r.uncategorized, today);
    hide LinkOf, QueryOfLink, WithDefaults, MonthOverMonthQuery, WithFlags;
  }

  lemma QueryFlags(link: Link, s: Imported, untagged: bool, uncategorized: bool)
    requires |link.groups| <= 1
    ensures QueryOfLink(link.(untagged := untagged, uncategorized := uncategorized), s) == WithFlags(QueryOfLink(link, s), untagged, uncategorized)
  {
    hide ImportGroup;
  }

  lemma NormalAgain(r: Report, s: Imported, today: Date)
    requires today.Valid()
    ensures Normalize(QueryOfLink(LinkOf(r), s), today) == ReadAndCheck(ImportedQuery(r, s, today), today)
  {
    hide LinkOf, QueryOfLink, WithDefaults, MonthOverMonthQuery, ReadAndCheck;
  }

  /** The fields of the plain report that comes back leave room for the flags: without a tag
      filter in the link no tag key comes back, and a category key never does. */
  lemma MayFlag(r: Report, s: Imported, b: Report, today: Date)
    requires today.Valid() && RuleError(r, today).None? && ComesBack(r) && Alike(Promoted(Unflagged(r)), b)
    requires NoAbsenceRead(s)
    requires
      var q := ImportedQuery(Unflagged(r), s, today);
      && ReadError(q, today).None?
      && b == Read(q, today).(compareStart := b.compareStart, compareEnd := b.compareEnd)
    ensures MayBeFlagged(Read(ImportedQuery(Unflagged(r), s, today), today), r.untagged, r.uncategorized)
  {
    var q := ImportedQuery(Unflagged(r), s, today);
    var d := Read(q, today);
    UntaggedAlone(r, today);
    PromotedPicked(Unflagged(r), Tag);
    ActiveOf(r.keyed);
    ImportedFields(Unflagged(r), s, today);
    ReadTag(q, today);
    ReadCategory(q, today);
    KeyedNormal(q.keyed);
    hide RuleError, Promoted, ImportedQuery, ReadError, Read, KeyedFilters, Values, ActiveItems, Active, Text.Ascending, Sense;
    SenseIncluded(q, today, CostCategory);
    if Tag in s.selected {
      ValuesPicked(s.selected[Tag]);
    } else {
      SenseIncluded(q, today, Tag);
    }
    if ActiveItems(r.keyed) != [] {
      assert ActiveItems(r.keyed)[0] in ActiveItems(r.keyed);
    }
  }

  /** A filter that no filter of the link names comes back as included. */
  lemma SenseIncluded(q: Query, today: Date, key: FilterKey)
    requires today.Valid() && ReadError(q, today).None? && key !in q.matching
    ensures Sense(Read(q, today), key) == Include
  {
    FiltersComplete(key);
    hide Values, FILTERS, FilterError, ResolveDates, RangeError, KeyedFilters;
  }

  lemma ReadCategory(q: Query, today: Date)
    requires today.Valid() && ReadError(q, today).None?
    ensures Read(q, today).categoryKey == q.categoryKey
  {
    hide Values, FILTERS, FilterError, ResolveDates, RangeError, KeyedFilters;
  }

  lemma FlaggedImport(r: Report, s: Imported, b: Report, today: Date)
    requires today.Valid() && LinkOf(r) == LinkOf(Unflagged(r)).(untagged := r.untagged, uncategorized := r.uncategorized)
    requires Import(LinkOf(Unflagged(r)), today).Linked? && ImportFilters(ExportFilters(Unflagged(r))) == Linked(s)
    requires Normalize(QueryOfLink(LinkOf(r), s), today) == Accepted(b)
    ensures Import(LinkOf(r), today) == Linked(b)
  {
    assert LinkOf(Unflagged(r)).filters == ExportFilters(Unflagged(r));
    hide LinkOf, ImportFilters, Normalize, ExportFilters, Unflagged;
    SetFlags(LinkOf(Unflagged(r)), LinkOf(r), s, b, today);
  }

  /** The import looks at the flags of a link only in its query. */
  lemma SetFlags(plain: Link, link: Link, s: Imported, b: Report, today: Date)
    requires today.Valid() && link == plain.(untagged := link.untagged, uncategorized := link.uncategorized)
    requires Import(plain, today).Linked? && ImportFilters(plain.filters) == Linked(s)
    requires Normalize(QueryOfLink(link, s), today) == Accepted(b)
    ensures Import(link, today) == Linked(b)
  {
    hide ImportFilters, Normalize, QueryOfLink;
  }

  /** The plain report comes back, by these steps. */
  ghost predicate PlainImport(r: Report, s: Imported, b: Report, today: Date)
    requires today.Valid()
  {
    var q := ImportedQuery(Unflagged(r), s, today);
    && Import(LinkOf(Unflagged(r)), today).Linked? && ImportFilters(ExportFilters(Unflagged(r))) == Linked(s)
    && ReadError(q, today).None? && Read(q, today).start.Valid()
    && Checked(Read(q, today), today) == Accepted(b) && RuleError(Read(q, today), today).None?
    && !Read(q, today).untagged && !Read(q, today).uncategorized
    && MayBeFlagged(Read(q, today), r.untagged, r.uncategorized)
  }

  lemma ImportsPlain(r: Report, today: Date) returns (s: Imported, b: Report)
    requires today.Valid() && Fixed(r, today) && ExportError(r, today).None? && ComesBack(r)
    ensures Alike(Promoted(Unflagged(r)), b) && MayBeFlagged(b, r.untagged, r.uncategorized) && PlainImport(r, s, b, today)
  {
    var r0 := Unflagged(r);
    UnflaggedHanded(r, today);
    FixedParts(r, today);
    TagsOnly(r, today);
    ExportFilled(r0);
    hide Fixed, Handed, Normal, ExportError, ComesBack, LinkOf, Alike, Promoted, ImportFilters, ExportFilters, ImportedQuery, ReadError, Read,
      Checked, Import, RuleError, WithComparison, FutureError, NoAbsenceRead, Active, MayBeFlagged;
    b := ImportsLink(r0, today);
    s := ImportParts(r0, today);
    LinkReads(ExportFilters(r0));
    var q0 := ImportedQuery(r0, s, today);
    CheckedAgain(Read(q0, today), today);
    MayFlag(r, s, b, today);
    ImportedFields(r0, s, today);
    ReadFlags(q0, today);
    CheckedRules(Read(q0, today), today);
    StillFlagged(Read(q0, today), b, r.untagged, r.uncategorized);
  }

  /** The flagged link is imported as the plain one, with the flags set. */
  lemma ImportsFlagged(r: Report, s: Imported, b: Report, today: Date)
    requires today.Valid() && ExportError(r, today).None? && ComesBack(r) && PlainImport(r, s, b, today)
    ensures Import(LinkOf(r), today) == Linked(Flagged(b, r.untagged, r.uncategorized))
  {
    FlaggedLink(r, today);
    hide ExportError, ComesBack, LinkOf, ImportFilters, ExportFilters, ImportedQuery, ReadError, Read, Checked, Import, RuleError, MayBeFlagged,
      Normalize, QueryOfLink, ReadAndCheck;
    var q0 := ImportedQuery(Unflagged(r), s, today);
    var d0 := Read(q0, today);
    FlaggedRules(d0, r.untagged, r.uncategorized, today);
    FlaggedChecked(d0, r.untagged, r.uncategorized, today);
    FlaggedQuery(r, s, today);
    FlaggedRead(q0, r.untagged, r.uncategorized, today);
    NormalAgain(r, s, today);
    ReadAndChecked(ImportedQuery(r, s, today), Flagged(b, r.untagged, r.uncategorized), today);
    FlaggedImport(r, s, Flagged(b, r.untagged, r.uncategorized), today);
  }

  lemma ReadFlags(q: Query, today: Date)
    requires today.Valid() && ReadError(q, today).None?
    ensures Read(q, today).untagged == q.untagged && Read(q, today).uncategorized == q.uncategorized
  {
    hide Values, FILTERS, FilterError, ResolveDates, RangeError, KeyedFilters;
  }

  lemma ReadAndChecked(q: Query, b: Report, today: Date)
    requires today.Valid() && ReadError(q, today).None? && Read(q, today).start.Valid() && Checked(Read(q, today), today) == Accepted(b)
    ensures ReadAndCheck(q, today) == Accepted(b)
  {
    hide ReadError, Read, Checked;
  }

  lemma StillFlagged(d: Report, b: Report, untagged: bool, uncategorized: bool)
    requires MayBeFlagged(d, untagged, uncategorized) && b == d.(compareStart := b.compareStart, compareEnd := b.compareEnd)
    ensures MayBeFlagged(b, untagged, uncategorized)
  {
  }

  // --- The same request ----------------------------------------------------------------------------------

  /** The conjuncts the two flags add. */
  function FlagParts(r: Report): seq<Conjunct> {
    (if r.uncategorized then PrimaryPart(r, CostCategory) else []) + (if r.untagged then PrimaryPart(r, Tag) else [])
  }

  lemma FlagsInside()
    ensures |FILTERS| == 19 && FILTERS == FILTERS[..7] + [CostCategory, Tag] + FILTERS[9..]
    ensures forall k :: k in FILTERS[..7] || k in FILTERS[9..] ==> k != Tag && k != CostCategory
  {
    PositionAt(7);
    PositionAt(8);
    forall i: nat | i < 19 && i != 7 && i != 8
      ensures FILTERS[i] != Tag && FILTERS[i] != CostCategory
    {
      PositionAt(i);
    }
    assert FILTERS[7] == CostCategory && FILTERS[8] == Tag;
    hide Position;
  }

  lemma UnflaggedPart(r: Report, key: FilterKey)
    ensures key != Tag && key != CostCategory ==> PrimaryPart(Unflagged(r), key) == PrimaryPart(r, key)
    ensures key == Tag && !r.untagged ==> PrimaryPart(Unflagged(r), key) == PrimaryPart(r, key)
    ensures key == Tag && r.untagged && Picked(r, Tag) == [] ==> PrimaryPart(Unflagged(r), key) == []
    ensures key == CostCategory && !r.uncategorized ==> PrimaryPart(Unflagged(r), key) == PrimaryPart(r, key)
    ensures key == CostCategory && r.uncategorized && Picked(r, CostCategory) == [] ==> PrimaryPart(Unflagged(r), key) == []
  {
    hide Plain;
  }

  /** Leaving out parts of a list leaves out their elements. */
  lemma LeftOut(a: seq<Conjunct>, c: seq<Conjunct>, t: seq<Conjunct>, z: seq<Conjunct>, c': seq<Conjunct>, t': seq<Conjunct>, out: seq<Conjunct>)
    requires (c' == c && out == t && t' == []) || (c' == [] && out == c + t && t' == []) || (c' == [] && out == c && t' == t)
             || (c' == c && t' == t && out == [])
    ensures multiset(a + (c + t) + z) == multiset(a + (c' + t') + z) + multiset(out)
  {
  }

  lemma FlaggedExpression(r: Report)
    requires (r.untagged ==> Picked(r, Tag) == []) && (r.uncategorized ==> Picked(r, CostCategory) == [])
    ensures multiset(Expression(r)) == multiset(Expression(Unflagged(r))) + multiset(FlagParts(r))
  {
    var r0 := Unflagged(r);
    SameKeyed(r);
    hide FILTERS, PrimaryPart, KeyedParts, PrimaryParts, Picked, Unflagged;
    FlagsInside();
    forall k: FilterKey
      ensures k != Tag && k != CostCategory ==> PrimaryPart(r0, k) == PrimaryPart(r, k)
    {
      UnflaggedPart(r, k);
    }
    UnflaggedPart(r, Tag);
    UnflaggedPart(r, CostCategory);
    PartsSame(r0, r, FILTERS[..7]);
    PartsSame(r0, r, FILTERS[9..]);
    PartsAround(r);
    PartsAround(r0);
    var before, after := PrimaryParts(r, FILTERS[..7]), PrimaryParts(r, FILTERS[9..]);
    LeftOut(before, PrimaryPart(r, CostCategory), PrimaryPart(r, Tag), after, PrimaryPart(r0, CostCategory), PrimaryPart(r0, Tag), FlagParts(r));
    assert multiset(Expression(r)) == multiset(PrimaryParts(r, FILTERS)) + multiset(KeyedParts(r.keyed));
    assert multiset(Expression(r0)) == multiset(PrimaryParts(r0, FILTERS)) + multiset(KeyedParts(r.keyed));
  }

  lemma SameKeyed(r: Report)
    ensures Unflagged(r).keyed == r.keyed
  {
  }

  lemma PartsAround(r: Report)
    requires |FILTERS| == 19 && FILTERS == FILTERS[..7] + [CostCategory, Tag] + FILTERS[9..]
    ensures PrimaryParts(r, FILTERS) ==
            PrimaryParts(r, FILTERS[..7]) + (PrimaryPart(r, CostCategory) + PrimaryPart(r, Tag)) + PrimaryParts(r, FILTERS[9..])
  {
    hide FILTERS, PrimaryPart;
    PartsConcat(r, FILTERS[..7] + [CostCategory, Tag], FILTERS[9..]);
    PartsConcat(r, FILTERS[..7], [CostCategory, Tag]);
    assert [CostCategory, Tag][..1] == [CostCategory] && [CostCategory][..0] == [];
    assert PrimaryParts(r, [CostCategory]) == [] + PrimaryPart(r, CostCategory);
    assert PrimaryParts(r, [CostCategory, Tag]) == PrimaryParts(r, [CostCategory]) + PrimaryPart(r, Tag);
  }

  lemma FlagPartsAre(r: Report)
    ensures FlagParts(r) ==
            (if r.uncategorized then [Conjunct(Sense(r, CostCategory) == Exclude,
                                               Absent(CategoryKey, if r.categoryKey == "" then None else Some(r.categoryKey)))] else [])
            + (if r.untagged then [Conjunct(Sense(r, Tag) == Exclude, Absent(TagKey, if r.tagKey == "" then None else Some(r.tagKey)))] else [])
  {
    hide Picked, Sense, Plain;
  }

  /** A plain report and the one that came back for it still ask for the same with the flags set. */
  lemma SameWithFlags(r: Report, b: Report)
    requires r.end.Valid() && b.end.Valid() && !b.untagged && !b.uncategorized
    requires SameRequest(AwsRequest(b), AwsRequest(Unflagged(r))) && MayBeFlagged(b, r.untagged, r.uncategorized)
    requires r.untagged ==> Picked(r, Tag) == [] && r.tagKey == "" && Sense(r, Tag) == Include
    requires r.uncategorized ==> Picked(r, CostCategory) == [] && r.categoryKey == "" && Sense(r, CostCategory) == Include
    ensures SameRequest(AwsRequest(Flagged(b, r.untagged, r.uncategorized)), AwsRequest(r))
  {
    var flagged := Flagged(b, r.untagged, r.uncategorized);
    assert Unflagged(flagged) == b;
    FlagPartsAre(r);
    FlagPartsAre(flagged);
    SameFilters(r);
    SameFilters(flagged);
    FlaggedExpression(r);
    FlaggedExpression(flagged);
    hide Expression, FlagParts, Picked, Sense, PlusDays;
    SameBut(r);
    SameBut(flagged);
  }

  /** The flags only add conjuncts. */
  lemma SameBut(r: Report)
    requires r.end.Valid()
    ensures AwsRequest(r).(filter := []) == AwsRequest(Unflagged(r)).(filter := [])
    ensures AwsRequest(r).filter == Expression(r)
  {
    hide Expression, PlusDays;
  }

  /** Absence of any key can only be exported when it is included. */
  lemma AbsenceIncluded(r: Report, today: Date)
    requires today.Valid() && ExportError(r, today).None? && ComesBack(r) && RuleError(r, today).None?
    ensures r.untagged ==> Picked(r, Tag) == [] && r.tagKey == "" && Sense(r, Tag) == Include
    ensures r.uncategorized ==> Picked(r, CostCategory) == [] && r.categoryKey == "" && Sense(r, CostCategory) == Include
  {
    hide PlusDays, Picked, PrimaryKey, PrimaryUsed, Sense, Active;
  }

  /** Exactly the reports that `ComesBack` admits come back: for every report that can be exported,
      its link is imported as a report that asks AWS for the same data on the same day (the same
      operation, days, granularity, metric, grouping and conjuncts, in another order at most, even
      when an additional tag key comes back as the primary one) if and only if it does not ask for
      usage alone, for the absence of one key, or for untagged costs beside an additional tag key. */
  lemma LinkRoundTripsExactly(q: Query, today: Date)
    requires today.Valid() && Export(q, today).Linked?
    ensures
      var r, imported := Normalize(q, today).value, Import(Export(q, today).value, today);
      && r.end.Valid()
      && (ComesBack(r) <==> imported.Linked? && imported.value.end.Valid() && SameRequest(AwsRequest(imported.value), AwsRequest(r)))
  {
    NormalizedIsFixed(q, today);
    var r := Normalize(q, today).value;
    FixedIsNormal(r, today);
    FixedDates(r, today);
    TagsOnly(r, today);
    hide Fixed, Normalize, Normal, LinkOf, Import, AwsRequest, Promoted, Alike, SameRequest, ComesBack, ExportError, Active, PlainImport,
      MayBeFlagged;
    if ComesBack(r) {
      ComingBack(r, today);
    } else {
      Lost(r, today);
    }
  }

  lemma ComingBack(r: Report, today: Date)
    requires today.Valid() && Fixed(r, today) && r.end.Valid() && ExportError(r, today).None? && ComesBack(r)
    ensures
      var imported := Import(LinkOf(r), today);
      imported.Linked? && imported.value.end.Valid() && SameRequest(AwsRequest(imported.value), AwsRequest(r))
  {
    FixedParts(r, today);
    AbsenceIncluded(r, today);
    UnflaggedExports(r, today);
    hide Fixed, LinkOf, Import, AwsRequest, Promoted, SameRequest, ComesBack, ExportError, Active, PlainImport, RuleError, WithComparison,
      FutureError, MayBeFlagged, Picked, Sense;
    var s, b := ImportsPlain(r, today);
    ImportsFlagged(r, s, b, today);
    assert !b.untagged && !b.uncategorized;
    hide Alike;
    SameAfterPromotion(Unflagged(r), b, today);
    SameWithFlags(r, b);
  }

  /** In particular the link of untagged costs beside an additional tag key is refused. */
  lemma UntaggedLinkIsRefused(r: Report, today: Date)
    requires today.Valid() && ExportError(r, today).None?
    requires r.untagged && r.tagKey == "" && exists k :: k in r.keyed && Active(k)
    ensures Import(LinkOf(r), today).Unlinked?
  {
    TagsOnly(r, today);
    hide Import, LinkOf, ExportError, Active;
    if Import(LinkOf(r), today).Linked? {
      ImportedReport(r, today);
    }
  }

  // --- A report that does not come back ----------------------------------------------------------------------

  const TODAY := Date(24300, 15) // 15 January 2025
  const TEAM := Keyed(TagKey, "t", ["v"], Include, false)

  /** December 2024, untagged costs, and one value of an additional tag key. */
  function UntaggedTeam(): Query {
    Query("", "", "", Chosen(Custom), Missing, On(Date(24299, 1)), On(Date(24299, 31)), Blank, Missing, Missing, "", Missing, Missing,
          Missing, Missing, Blank, Blank, "", "", "", Missing, None, true, false, false, map[], map[], KeyedList([RawOf(TEAM)]))
  }

  lemma TeamAccepted()
    ensures KeyedFilters(KeyedList([RawOf(TEAM)])) == Accepted([TEAM])
  {
    assert "t"[1..] == "" && "v"[1..] == "" && ["v"][1..] == [] && [TEAM][1..] == [];
    assert TextSize("t") == 1 && TextSize("v") == 1;
    assert ValuesSize(["v"], SPACED) == 3;
    assert ItemsSize([TEAM], SPACED) == ItemSize(TEAM, SPACED);
    assert NormalKeyed([TEAM]);
    assert RawItems([TEAM]) == [RawOf(TEAM)];
    KeyedAgain([TEAM]);
  }

  lemma NoValues(q: Query, k: FilterKey)
    requires q.filters == map[] && q.matching == map[]
    ensures k in FILTERS && Values(k, ValuesOf(q.filters, k)) == Accepted([]) && MatchingOf(q.matching, k) == Chosen(Include)
  {
    FiltersComplete(k);
    NormalValuesAgain(k, []);
    hide Values, FILTERS;
  }

  lemma NoFilters(q: Query)
    requires q.filters == map[] && q.matching == map[]
    ensures FilterError(q, FILTERS).None? && forall k: FilterKey :: k in Selected(q) && k in Matched(q) && Selected(q)[k] == [] && Matched(q)[k] == Include
  {
    hide Values, FILTERS, FilterError, ValuesOf, MatchingOf;
    forall k: FilterKey
      ensures k in FILTERS && Values(k, ValuesOf(q.filters, k)) == Accepted([]) && MatchingOf(q.matching, k) == Chosen(Include)
    {
      NoValues(q, k);
    }
    NoFilterError(q, FILTERS);
  }

  lemma TeamDates()
    ensures TODAY.Valid()
    ensures ResolveDates(Chosen(Custom), Missing, On(Date(24299, 1)), On(Date(24299, 31)), Blank, TODAY)
            == Accepted(Dates(Custom, 0, Date(24299, 1), Date(24299, 31), Date(24299, 31)))
    ensures RangeError(Date(24299, 1), Date(24299, 31), Chosen(Monthly), TODAY).None?
  {
    LastIsLater();
    hide Ordinal, Last, RelativeDays;
  }

  /** The same with every default filled in. */
  function FullTeam(): Query {
    Query("", "", USD, Chosen(Custom), Missing, On(Date(24299, 1)), On(Date(24299, 31)), Blank, Chosen(Monthly), Chosen(By(Service)), "",
          Chosen(Stacked), Chosen(CostMetric.Unblended), Chosen(Standard), Chosen(PreviousPeriod), Blank, Blank, "", "", DEFAULT_NAME,
          Chosen(Cost), None, true, false, false, map[], map[], KeyedList([RawOf(TEAM)]))
  }

  lemma TeamDefaults()
    ensures MonthOverMonthQuery(WithDefaults(UntaggedTeam()), TODAY) == FullTeam()
  {
    hide RawOf;
  }

  lemma NothingRefused(q: Query, dates: Dates, today: Date)
    requires today.Valid() && q.comparison.Chosen? && ResolveDates(q.range, q.future, q.start, q.end, q.historicalEnd, today) == Accepted(dates)
    requires RangeError(dates.start, dates.end, q.granularity, today).None? && ChoicesKnown(q) && q.currency == USD && NamesFit(q)
    requires FilterError(q, FILTERS).None? && KeyedFilters(q.keyed).Accepted?
    ensures ReadError(q, today).None?
  {
    hide FILTERS, FilterError, KeyedFilters, ResolveDates, RangeError, ChoicesKnown, NamesFit;
  }

  lemma TeamReadable()
    ensures TODAY.Valid() && ReadError(FullTeam(), TODAY).None?
  {
    hide FILTERS, FilterError, KeyedFilters, ResolveDates, RangeError, RawOf, ReadError;
    TeamAccepted();
    TeamDates();
    NoFilters(FullTeam());
    NothingRefused(FullTeam(), Dates(Custom, 0, Date(24299, 1), Date(24299, 31), Date(24299, 31)), TODAY);
  }

  lemma TeamReads() returns (r: Report)
    ensures TODAY.Valid() && ReadError(FullTeam(), TODAY).None? && Read(FullTeam(), TODAY) == r
    ensures r.untagged && !r.uncategorized && r.tagKey == "" && r.categoryKey == "" && r.keyed == [TEAM] && r.groupBy == By(Service)
    ensures r.mode.Standard? && r.measure.Cost? && !r.normalized && r.granularity.Monthly?
    ensures r.start == Date(24299, 1) && r.end == Date(24299, 31)
    ensures forall k: FilterKey :: Picked(r, k) == [] && Sense(r, k) == Include
  {
    TeamReadable();
    TeamAccepted();
    TeamDates();
    NoFilters(FullTeam());
    hide FILTERS, FilterError, KeyedFilters, Selected, Matched, ResolveDates, ReadError, RawOf;
    r := Read(FullTeam(), TODAY);
  }

  lemma TeamRead() returns (r: Report)
    ensures TODAY.Valid() && Normalize(UntaggedTeam(), TODAY) == Accepted(r)
    ensures r.untagged && !r.uncategorized && r.tagKey == "" && r.categoryKey == "" && r.keyed == [TEAM] && r.groupBy == By(Service)
    ensures r.end == Date(24299, 31) && forall k: FilterKey :: Picked(r, k) == [] && Sense(r, k) == Include
  {
    r := TeamReads();
    TeamDefaults();
    hide FullTeam, Read, ReadError, WithDefaults, MonthOverMonthQuery, UntaggedTeam, PlusDays, PlusMonths, Picked, Sense;
    assert RuleError(r, TODAY).None?;
    assert FutureError(r, TODAY).None?;
  }

  lemma LastIsLater()
    ensures !Last(TODAY.month + FORECAST_MONTHS).Before(Date(24299, 31))
  {
  }

  /** The report is accepted and exported, and its link is refused. */
  lemma UntaggedTeamIsLost()
    ensures TODAY.Valid() && Export(UntaggedTeam(), TODAY).Linked? && Import(Export(UntaggedTeam(), TODAY).value, TODAY).Unlinked?
  {
    var r := TeamRead();
    hide Normalize, LinkOf, Import, UntaggedTeam;
    assert ExportError(r, TODAY).None?;
    assert TEAM in r.keyed && Active(TEAM);
    UntaggedLinkIsRefused(r, TODAY);
  }
}
