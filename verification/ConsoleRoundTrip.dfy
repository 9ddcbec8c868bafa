/** A report exported to a console link and imported again asks AWS for the same data. */
module ConsoleRoundTrip {
  import opened Options
  import opened Calendar
  import opened Reports
  import opened Normalization
  import opened Console

  // --- Reading back the exported filters ---------------------------------------------------------

  lemma {:induction false} NamedPlain(values: seq<string>)
    requires "" !in values
    ensures Named(Plain(values)) == values
  {
    if values != [] {
      NamedPlain(values[1..]);
    }
  }

  lemma PositionAt(i: nat)
    requires i < 19
    ensures |FILTERS| == 19 && Position(FILTERS[i]) == i
  {
    var f := FILTERS;
    assert Position(f[0]) == 0 && Position(f[1]) == 1 && Position(f[2]) == 2 && Position(f[3]) == 3 && Position(f[4]) == 4;
    assert Position(f[5]) == 5 && Position(f[6]) == 6 && Position(f[7]) == 7 && Position(f[8]) == 8 && Position(f[9]) == 9;
    assert Position(f[10]) == 10 && Position(f[11]) == 11 && Position(f[12]) == 12 && Position(f[13]) == 13 && Position(f[14]) == 14;
    assert Position(f[15]) == 15 && Position(f[16]) == 16 && Position(f[17]) == 17 && Position(f[18]) == 18;
  }

  lemma NotBefore(n: nat)
    requires n < 19
    ensures |FILTERS| == 19 && FILTERS[n] !in FILTERS[..n]
  {
    PositionAt(n);
    forall i: nat | i < n
      ensures FILTERS[i] != FILTERS[n]
    {
      PositionAt(i);
    }
  }

  ghost predicate CleanValues(r: Report) {
    && (forall k: FilterKey :: "" !in Picked(r, k))
    && (forall k :: k in r.keyed ==> "" !in k.values)
  }

  function PickedMap(r: Report, keys: seq<FilterKey>): map<FilterKey, seq<string>> {
    map k | k in keys && Picked(r, k) != [] :: Picked(r, k)
  }

  function SenseMap(r: Report, keys: seq<FilterKey>): map<FilterKey, Matching> {
    map k | k in keys && Picked(r, k) != [] :: Sense(r, k)
  }

  function PrimaryState(r: Report, keys: seq<FilterKey>): Imported {
    Imported(PickedMap(r, keys), SenseMap(r, keys), if Tag in PickedMap(r, keys) then r.tagKey else "", [])
  }

  lemma ImportsNothing(r: Report)
    ensures ImportFilters(ExportPrimary(r, [])) == Linked(PrimaryState(r, []))
  {
  }

  lemma {:induction false} ImportsPrimary(r: Report, n: nat)
    requires CleanValues(r) && n <= 19 && |FILTERS| == 19
    requires Picked(r, CostCategory) == [] && (Picked(r, Tag) != [] ==> r.tagKey != "")
    ensures ImportFilters(ExportPrimary(r, FILTERS[..n])) == Linked(PrimaryState(r, FILTERS[..n]))
  {
    hide Picked, Sense, FILTERS, Plain, Named, ImportFilters, ExportPrimary, PrimaryState;
    if n == 0 {
      ImportsNothing(r);
      assert FILTERS[..0] == [];
    } else {
      var keys, key := FILTERS[..n - 1], FILTERS[n - 1];
      assert FILTERS[..n][..n - 1] == keys && FILTERS[..n] == keys + [key];
      ImportsPrimary(r, n - 1);
      NotBefore(n - 1);
      NamedPlain(Picked(r, key));
      ImportsNext(r, keys, key);
    }
  }

  lemma ImportsNext(r: Report, keys: seq<FilterKey>, key: FilterKey)
    requires ImportFilters(ExportPrimary(r, keys)) == Linked(PrimaryState(r, keys))
    requires key !in keys && Named(Plain(Picked(r, key))) == Picked(r, key)
    requires Picked(r, CostCategory) == [] && (Picked(r, Tag) != [] ==> r.tagKey != "")
    ensures ImportFilters(ExportPrimary(r, keys + [key])) == Linked(PrimaryState(r, keys + [key]))
  {
    hide Picked, Sense, Plain, Named, PrimaryState, ImportFilter;
    var before, all := ExportPrimary(r, keys), ExportPrimary(r, keys + [key]);
    assert (keys + [key])[..|keys|] == keys;
    StateNext(r, keys, key);
    if Picked(r, key) == [] {
      assert all == before;
    } else {
      assert all[..|before|] == before && |all| == |before| + 1;
      assert all[|before|] == LinkFilter(Some(key), Some(Sense(r, key)),
                                         if key.Tag? then Some(r.tagKey) else if key.CostCategory? then Some(r.categoryKey) else None,
                                         Plain(Picked(r, key)));
    }
  }

  /** One more exported filter is one more filter read. */
  lemma StateNext(r: Report, keys: seq<FilterKey>, key: FilterKey)
    requires key !in keys && Named(Plain(Picked(r, key))) == Picked(r, key)
    requires Picked(r, CostCategory) == [] && (Picked(r, Tag) != [] ==> r.tagKey != "")
    ensures Picked(r, key) == [] ==> PrimaryState(r, keys + [key]) == PrimaryState(r, keys)
    ensures Picked(r, key) != [] ==>
              ImportFilter(PrimaryState(r, keys),
                           LinkFilter(Some(key), Some(Sense(r, key)),
                                      if key.Tag? then Some(r.tagKey) else if key.CostCategory? then Some(r.categoryKey) else None,
                                      Plain(Picked(r, key))))
              == Linked(PrimaryState(r, keys + [key]))
  {
    hide Picked, Sense, Plain, Named;
    MapsNext(r, keys, key);
    hide PickedMap, SenseMap;
    assert key !in PickedMap(r, keys);
  }

  lemma MapsNext(r: Report, keys: seq<FilterKey>, key: FilterKey)
    requires key !in keys
    ensures key !in PickedMap(r, keys)
    ensures
      if Picked(r, key) == [] then PickedMap(r, keys + [key]) == PickedMap(r, keys) && SenseMap(r, keys + [key]) == SenseMap(r, keys)
      else PickedMap(r, keys + [key]) == PickedMap(r, keys)[key := Picked(r, key)]
           && SenseMap(r, keys + [key]) == SenseMap(r, keys)[key := Sense(r, key)]
  {
    hide Picked, Sense;
  }

  /** The keyed filters that restrict something. */
  function ActiveItems(items: seq<Keyed>): seq<Keyed> {
    if items == [] then []
    else if Active(items[|items| - 1]) then ActiveItems(items[..|items| - 1]) + [items[|items| - 1]]
    else ActiveItems(items[..|items| - 1])
  }

  function AddKeyed(s: Imported, k: Keyed): Imported {
    if Tag in s.selected then s.(additional := s.additional + [RawOf(k)])
    else s.(selected := s.selected[Tag := k.values], matching := s.matching[Tag := k.mode], tagKey := k.key)
  }

  function AddAll(s: Imported, items: seq<Keyed>): Imported {
    if items == [] then s else AddKeyed(AddAll(s, items[..|items| - 1]), items[|items| - 1])
  }

  /** What is read back of all exported filters. */
  function ImportedState(r: Report): Imported {
    AddAll(PrimaryState(r, FILTERS), ActiveItems(r.keyed))
  }

  ghost predicate PlainTags(items: seq<Keyed>) {
    forall k :: k in items ==> "" !in k.values && k.key != "" && !k.absent && (Active(k) ==> k.kind.TagKey?)
  }

  lemma ImportsItem(s: Imported, k: Keyed)
    requires "" !in k.values && k.key != "" && !k.absent && k.kind.TagKey?
    ensures ImportFilter(s, ExportItem(k)) == Linked(AddKeyed(s, k))
  {
    NamedPlain(k.values);
  }

  lemma {:induction false} ImportsKeyed(base: seq<LinkFilter>, s: Imported, items: seq<Keyed>)
    requires ImportFilters(base) == Linked(s) && PlainTags(items)
    ensures ImportFilters(base + ExportKeyed(items)) == Linked(AddAll(s, ActiveItems(items)))
  {
    hide Active, ImportFilter, ExportItem, AddKeyed;
    if items == [] {
      assert base + ExportKeyed(items) == base;
    } else {
      var front, k := items[..|items| - 1], items[|items| - 1];
      assert k in items;
      ImportsKeyed(base, s, front);
      if Active(k) {
        ImportsItem(AddAll(s, ActiveItems(front)), k);
        var all := base + ExportKeyed(items);
        assert all == base + ExportKeyed(front) + [ExportItem(k)];
        assert all[..|all| - 1] == base + ExportKeyed(front) && all[|all| - 1] == ExportItem(k);
        assert ActiveItems(items)[..|ActiveItems(front)|] == ActiveItems(front);
      } else {
        assert ExportKeyed(items) == ExportKeyed(front);
      }
    }
  }

  /** With a primary tag every item is additional; without one the first becomes the primary. */
  lemma {:induction false} AddedAll(s: Imported, items: seq<Keyed>)
    requires s.additional == []
    ensures AddAll(s, items) ==
            if Tag in s.selected then s.(additional := RawItems(items))
            else if items == [] then s
            else s.(selected := s.selected[Tag := items[0].values], matching := s.matching[Tag := items[0].mode], tagKey := items[0].key,
                    additional := RawItems(items[1..]))
  {
    if items != [] {
      var n := |items| - 1;
      AddedAll(s, items[..n]);
      assert RawItems(items) == RawItems(items[..n]) + [RawOf(items[n])];
      if n > 0 {
        assert items[1..][..n - 1] == items[..n][1..];
        assert RawItems(items[1..]) == RawItems(items[..n][1..]) + [RawOf(items[n])];
      } else {
        assert items[1..] == [] && RawItems(items[1..]) == [];
      }
    }
  }

  // --- Active items are a normal list ---------------------------------------------------------------

  lemma {:induction false} ActiveOf(items: seq<Keyed>)
    ensures forall k :: k in ActiveItems(items) <==> k in items && Active(k)
    ensures |ActiveItems(items)| <= |items|
  {
    if items != [] {
      var n := |items| - 1;
      ActiveOf(items[..n]);
      assert items == items[..n] + [items[n]];
    }
  }

  lemma {:induction false} ActiveAscending(items: seq<Keyed>)
    requires AscendingKeyed(items)
    ensures AscendingKeyed(ActiveItems(items))
  {
    hide KeyedLess, Active;
    if items != [] {
      var n := |items| - 1;
      ActiveAscending(items[..n]);
      ActiveOf(items[..n]);
      var before := ActiveItems(items[..n]);
      forall i | 0 <= i < |before|
        ensures KeyedLess(before[i], items[n])
      {
        assert before[i] in before;
        var j :| 0 <= j < n && items[..n][j] == before[i];
      }
    }
  }

  lemma {:induction false} ItemsSizeAppend(items: seq<Keyed>, k: Keyed, separator: nat)
    ensures ItemsSize(items + [k], separator) == ItemsSize(items, separator) + ItemSize(k, separator)
  {
    if items != [] {
      assert (items + [k])[1..] == items[1..] + [k];
      ItemsSizeAppend(items[1..], k, separator);
    } else {
      assert [k][1..] == [];
    }
  }

  lemma {:induction false} ActiveSize(items: seq<Keyed>, separator: nat)
    ensures ItemsSize(ActiveItems(items), separator) <= ItemsSize(items, separator)
  {
    if items != [] {
      var n := |items| - 1;
      ActiveSize(items[..n], separator);
      assert items == items[..n] + [items[n]];
      ItemsSizeAppend(items[..n], items[n], separator);
      ItemsSizeAppend(ActiveItems(items[..n]), items[n], separator);
    }
  }

  lemma ActiveNormal(items: seq<Keyed>)
    requires NormalKeyed(items)
    ensures NormalKeyed(ActiveItems(items))
    ensures ActiveItems(items) != [] ==> NormalKeyed(ActiveItems(items)[1..])
  {
    ActiveOf(items);
    ActiveAscending(items);
    ActiveSize(items, SPACED);
  }

  lemma {:induction false} PartsAppend(items: seq<Keyed>, k: Keyed)
    ensures KeyedParts(items + [k]) == KeyedParts(items) + if Active(k) then [KeyedPart(k)] else []
  {
    if items != [] {
      assert (items + [k])[1..] == items[1..] + [k];
      PartsAppend(items[1..], k);
    } else {
      assert [k][1..] == [];
    }
  }

  lemma {:induction false} ActiveParts(items: seq<Keyed>)
    ensures KeyedParts(ActiveItems(items)) == KeyedParts(items)
  {
    if items != [] {
      var n := |items| - 1;
      ActiveParts(items[..n]);
      assert items == items[..n] + [items[n]];
      PartsAppend(items[..n], items[n]);
      PartsAppend(ActiveItems(items[..n]), items[n]);
    }
  }

  // --- The report that comes back ----------------------------------------------------------------------

  /** The report with its additional tag key moved into the empty primary place. */
  function Promoted(r: Report): Report {
    var active := ActiveItems(r.keyed);
    if Picked(r, Tag) != [] || active == [] then r.(keyed := active)
    else r.(selected := r.selected[Tag := active[0].values], matching := r.matching[Tag := active[0].mode], tagKey := active[0].key,
            keyed := active[1..])
  }

  predicate NoAbsence(r: Report) {
    !r.untagged && !r.uncategorized && forall k :: k in r.keyed ==> !k.absent
  }

  lemma {:induction false} PartsConcat(r: Report, a: seq<FilterKey>, b: seq<FilterKey>)
    ensures PrimaryParts(r, a + b) == PrimaryParts(r, a) + PrimaryParts(r, b)
  {
    hide PrimaryPart;
    if b == [] {
      assert a + b == a;
    } else {
      assert (a + b)[..|a + b| - 1] == a + b[..|b| - 1];
      PartsConcat(r, a, b[..|b| - 1]);
    }
  }

  lemma {:induction false} PartsSame(r: Report, s: Report, keys: seq<FilterKey>)
    requires forall k :: k in keys ==> PrimaryPart(r, k) == PrimaryPart(s, k)
    ensures PrimaryParts(r, keys) == PrimaryParts(s, keys)
  {
    hide PrimaryPart;
    if keys != [] {
      assert keys == keys[..|keys| - 1] + [keys[|keys| - 1]];
      PartsSame(r, s, keys[..|keys| - 1]);
    }
  }

  lemma MovedTag(p: Report, r: Report, before: seq<FilterKey>, after: seq<FilterKey>, part: Conjunct)
    requires FILTERS == before + [Tag] + after
    requires PrimaryParts(p, before) == PrimaryParts(r, before) && PrimaryParts(p, after) == PrimaryParts(r, after)
    requires PrimaryPart(r, Tag) == [] && PrimaryPart(p, Tag) == [part]
    requires KeyedParts(r.keyed) == [part] + KeyedParts(p.keyed)
    ensures multiset(Expression(p)) == multiset(Expression(r))
  {
    hide FILTERS, PrimaryPart, KeyedParts;
    PartsConcat(p, before + [Tag], after);
    PartsConcat(p, before, [Tag]);
    PartsConcat(r, before + [Tag], after);
    PartsConcat(r, before, [Tag]);
    assert [Tag][..0] == [];
    assert PrimaryParts(p, [Tag]) == [] + [part] && PrimaryParts(r, [Tag]) == [];
    hide PrimaryParts;
  }

  lemma PromotedPart(r: Report, key: FilterKey)
    requires NoAbsence(r)
    ensures key != Tag || Picked(r, Tag) != [] || ActiveItems(r.keyed) == [] ==> PrimaryPart(Promoted(r), key) == PrimaryPart(r, key)
  {
    hide ActiveItems, Plain;
  }

  lemma PromotedTag(r: Report)
    requires NoAbsence(r) && forall k :: k in r.keyed && Active(k) ==> k.kind.TagKey?
    requires Picked(r, Tag) == [] && ActiveItems(r.keyed) != []
    ensures
      var active := ActiveItems(r.keyed);
      && PrimaryPart(r, Tag) == [] && PrimaryPart(Promoted(r), Tag) == [KeyedPart(active[0])]
      && KeyedParts(active) == [KeyedPart(active[0])] + KeyedParts(active[1..])
  {
    ActiveOf(r.keyed);
    var active := ActiveItems(r.keyed);
    hide ActiveItems, Plain;
    assert active[0] in active;
  }

  /** Moving a tag key to the primary place only moves its conjunct. */
  lemma PromotedExpression(r: Report)
    requires NoAbsence(r) && forall k :: k in r.keyed && Active(k) ==> k.kind.TagKey?
    ensures multiset(Expression(Promoted(r))) == multiset(Expression(r))
  {
    hide FILTERS, PrimaryPart, Sense;
    var active, p := ActiveItems(r.keyed), Promoted(r);
    ActiveParts(r.keyed);
    forall key | key != Tag || Picked(r, Tag) != [] || active == []
      ensures PrimaryPart(p, key) == PrimaryPart(r, key)
    {
      PromotedPart(r, key);
    }
    if Picked(r, Tag) != [] || active == [] {
      PartsSame(p, r, FILTERS);
    } else {
      TagInside();
      PartsSame(p, r, FILTERS[..8]);
      PartsSame(p, r, FILTERS[9..]);
      PromotedTag(r);
      MovedTag(p, r, FILTERS[..8], FILTERS[9..], KeyedPart(active[0]));
    }
  }

  lemma TagInside()
    ensures |FILTERS| == 19 && FILTERS == FILTERS[..8] + [Tag] + FILTERS[9..]
    ensures Tag !in FILTERS[..8] && Tag !in FILTERS[9..]
  {
    NoTagAround();
    assert FILTERS[8] == Tag;
  }

  lemma NoTagAround()
    ensures |FILTERS| == 19 && Tag !in FILTERS[..8] && Tag !in FILTERS[9..]
  {
    PositionAt(0);
    forall i: nat | i < 19 && i != 8
      ensures FILTERS[i] != Tag
    {
      PositionAt(i);
    }
  }

  // --- Reports that ask for the same data ----------------------------------------------------------------

  /** Two reports without absence filters and cost categories that agree on all that a request
      and the checks depend on. */
  ghost predicate Alike(a: Report, b: Report) {
    && a.start == b.start && a.end == b.end && a.granularity == b.granularity && a.mode == b.mode
    && a.groupBy == b.groupBy && (a.groupBy == By(Tag) ==> a.groupKey == b.groupKey) && a.groupBy != By(CostCategory)
    && a.metric == b.metric && a.measure == b.measure && a.normalized == b.normalized && a.forecast == b.forecast
    && !a.untagged && !a.uncategorized && !b.untagged && !b.uncategorized
    && (forall k: FilterKey :: Picked(a, k) == Picked(b, k) && (Picked(a, k) != [] ==> Sense(a, k) == Sense(b, k)))
    && Picked(a, CostCategory) == [] && (Picked(a, Tag) != [] ==> a.tagKey == b.tagKey)
    && a.keyed == b.keyed && (forall k :: k in a.keyed ==> k.kind.TagKey?)
  }

  lemma AlikeRequests(a: Report, b: Report)
    requires Alike(a, b) && a.end.Valid()
    ensures AwsRequest(a) == AwsRequest(b)
  {
    hide FILTERS, Plain, Picked, Sense, PlusDays;
    forall k | k in FILTERS
      ensures PrimaryPart(a, k) == PrimaryPart(b, k)
    {
    }
    hide PrimaryPart;
    PartsSame(a, b, FILTERS);
  }

  lemma AlikeChecks(a: Report, b: Report, today: Date)
    requires Alike(a, b) && today.Valid()
    ensures RuleError(a, today).None? ==> RuleError(b, today).None?
    ensures FutureError(a, today) == FutureError(b, today)
  {
    hide Picked, Sense, PlusDays, PlusMonths;
  }

  ghost predicate NoRepeatedKey(r: Report) {
    forall k :: k in r.keyed ==> !(k.key == PrimaryKey(r, k.kind) && PrimaryUsed(r, k.kind))
  }

  /** The other rules do not depend on which tag key is the primary one. */
  lemma OtherRules(a: Report, b: Report, today: Date)
    requires today.Valid() && RuleError(a, today).None? && NoRepeatedKey(b)
    requires b == a.(selected := b.selected, matching := b.matching, tagKey := b.tagKey, keyed := b.keyed)
    requires !a.untagged && !a.uncategorized && (Picked(b, Tag) != [] ==> b.tagKey != "")
    requires forall k: FilterKey :: k != Tag ==> Picked(a, k) == Picked(b, k) && Sense(a, k) == Sense(b, k)
    ensures RuleError(b, today).None?
  {
    hide Picked, Sense, PlusDays, PrimaryKey, PrimaryUsed;
  }

  lemma PromotedDistinct(r: Report)
    requires NoRepeatedKey(r) && NoAbsence(r) && NormalKeyed(r.keyed)
    requires forall k :: k in r.keyed && Active(k) ==> k.kind.TagKey?
    ensures NoRepeatedKey(Promoted(r))
  {
    ActiveOf(r.keyed);
    ActiveNormal(r.keyed);
    var active, p := ActiveItems(r.keyed), Promoted(r);
    AscendingDistinct(active);
    hide ActiveItems, NormalKeyed, AscendingKeyed;
    if Picked(r, Tag) == [] && active != [] {
      forall k | k in p.keyed
        ensures k.kind.TagKey? && k.key != p.tagKey
      {
        var i :| 0 <= i < |active[1..]| && active[1..][i] == k;
        assert active[i + 1] == k && k in active && active[0] in active && !Same(active[0], active[i + 1]);
      }
    }
  }

  lemma RulesHold(r: Report, today: Date)
    requires today.Valid() && RuleError(r, today).None?
    ensures NoRepeatedKey(r) && (Picked(r, Tag) != [] ==> r.tagKey != "")
  {
    hide PlusDays, Picked, PrimaryUsed, PrimaryKey;
  }

  /** Promotion touches the primary tag and the additional filters only. */
  lemma PromotedFields(r: Report)
    requires NormalKeyed(r.keyed) && (Picked(r, Tag) != [] ==> r.tagKey != "")
    ensures
      var p := Promoted(r);
      && p == r.(selected := p.selected, matching := p.matching, tagKey := p.tagKey, keyed := p.keyed)
      && (Picked(p, Tag) != [] ==> p.tagKey != "")
      && (forall k: FilterKey :: k != Tag ==> Picked(r, k) == Picked(p, k) && Sense(r, k) == Sense(p, k))
  {
    ActiveOf(r.keyed);
    var active := ActiveItems(r.keyed);
    hide ActiveItems, AscendingKeyed;
    if active != [] {
      assert active[0] in active;
    }
  }

  lemma PromotedChecks(r: Report, today: Date)
    requires today.Valid() && RuleError(r, today).None? && NoAbsence(r) && NormalKeyed(r.keyed)
    requires forall k :: k in r.keyed && Active(k) ==> k.kind.TagKey?
    ensures RuleError(Promoted(r), today).None?
    ensures FutureError(Promoted(r), today) == FutureError(r, today)
  {
    hide PlusDays, PlusMonths, RuleError, NoRepeatedKey, Promoted, Picked, Sense, NormalKeyed;
    RulesHold(r, today);
    PromotedDistinct(r);
    PromotedFields(r);
    OtherRules(r, Promoted(r), today);
  }

  /** A comparison whose dates are set and pass is found again from the dates alone. */
  lemma ComparisonKept(r: Report, b: Report, today: Date)
    requires today.Valid() && r.start.Valid() && WithComparison(r, today) == Accepted(r) && Promoted(r).mode == r.mode
    requires b.start.Valid() && b.mode == r.mode && b.granularity == r.granularity && ByResource(b) == ByResource(r)
    requires r.mode.Compare? ==> !b.comparison.PreviousPeriod? && b.compareStart == r.compareStart && b.compareEnd == r.compareEnd
    ensures WithComparison(b, today) == Accepted(b)
  {
    hide Preceding, PlusDays, Ordinal, ByResource, Promoted;
  }

  // --- Importing an exported link ------------------------------------------------------------------------

  /** The filters that come back are those of the promoted report. */
  lemma StateIsPromoted(r: Report)
    requires NoAbsence(r) && forall k: FilterKey :: k in r.selected && k in r.matching
    ensures
      var s, p := ImportedState(r), Promoted(r);
      && (forall k: FilterKey :: ValuesOf(s.selected, k) == Picked(p, k))
      && (forall k: FilterKey :: if Picked(p, k) != [] then k in s.matching && s.matching[k] == Sense(p, k) else k !in s.matching)
      && (Picked(p, Tag) != [] ==> s.tagKey == p.tagKey)
      && |s.tagKey| <= |p.tagKey|
      && s.additional == RawItems(p.keyed)
  {
    ActiveOf(r.keyed);
    AddedAll(PrimaryState(r, FILTERS), ActiveItems(r.keyed));
    var active := ActiveItems(r.keyed);
    forall k: FilterKey
      ensures k in FILTERS
    {
      FiltersComplete(k);
    }
    hide ActiveItems, FILTERS, AddAll, RawItems;
    if active != [] {
      assert active[0] in active;
    }
  }

  /** What a fixed report says of its own dates. */
  lemma FixedDates(r: Report, today: Date)
    requires today.Valid() && Fixed(r, today)
    ensures r.start.Valid() && r.end.Valid() && !r.end.Before(r.start) && r.range.Known() && KnownFuture(r.future)
    ensures (r.future != 0 ==> today.Before(r.end))
    ensures ResolveDates(Chosen(r.range), Chosen(r.future), On(r.start), On(r.end), Blank, today)
            == Accepted(Dates(r.range, r.future, r.start, r.end, if r.range.Custom? then r.end else r.historicalEnd))
    ensures RangeError(r.start, r.end, Chosen(r.granularity), today).None?
  {
    var q := QueryOf(r);
    assert ReadError(q, today).None? && Read(q, today) == r;
    DatesAgain(q.range, q.future, q.start, q.end, q.historicalEnd, today);
    hide ResolveDates, FilterError, KeyedFilters, Selected, Matched, FILTERS, RawItems, ListSize, Ordinal;
  }

  /** A comparison report lies in the past and has no forecast range. */
  lemma ComparisonIsPast(r: Report, today: Date)
    requires today.Valid() && Fixed(r, today) && r.mode.Compare?
    ensures !today.Before(r.end) && r.future == 0
  {
    hide Fixed, RuleError, WithComparison, ResolveDates, RangeError;
    FixedDates(r, today);
    FixedParts(r, today);
  }

  function ImportedQuery(r: Report, s: Imported, today: Date): Query
    requires today.Valid()
  {
    MonthOverMonthQuery(WithDefaults(QueryOfLink(LinkOf(r), s)), today)
  }

  /** Month over month leaves its mark on a fixed report. */
  lemma FixedMonthOverMonth(r: Report, today: Date)
    requires today.Valid() && Fixed(r, today) && r.mode.Compare? && r.comparison.MonthOverMonth?
    ensures r.range.LastMonth? && r.granularity.Monthly?
    ensures r.compareStart == On(First(today.month - 2)) && r.compareEnd == On(Last(today.month - 2))
  {
    hide ReadError, Read, Checked;
    assert MonthOverMonthQuery(WithDefaults(QueryOf(r)), today) == QueryOf(r);
  }

  /** The first and last day come back, from the relative range or from the dates themselves. */
  lemma ImportedDates(r: Report, s: Imported, today: Date)
    requires today.Valid() && Fixed(r, today)
    ensures
      var q := ImportedQuery(r, s, today);
      var dates := ResolveDates(q.range, q.future, q.start, q.end, q.historicalEnd, today);
      dates.Accepted? && dates.value.start == r.start && dates.value.end == r.end
  {
    hide ReadError, Read, Checked, RangeError, RelativeDays, ExportFilters, Fixed;
    FixedDates(r, today);
    var q := ImportedQuery(r, s, today);
    if r.mode.Compare? {
      ComparisonIsPast(r, today);
      if r.comparison.MonthOverMonth? {
        FixedMonthOverMonth(r, today);
      }
    }
  }

  /** Every filter that comes back is accepted as it is. */
  lemma ImportedFilters(q: Query, r: Report, s: Imported)
    requires NoAbsence(r) && Normal(r) && forall k :: k in r.keyed && Active(k) ==> k.kind.TagKey?
    requires s == ImportedState(r)
    requires q.filters == s.selected && q.matching == map k | k in s.matching :: Chosen(s.matching[k])
    requires q.keyed == KeyedList(s.additional)
    ensures FilterError(q, FILTERS).None? && KeyedFilters(q.keyed) == Accepted(Promoted(r).keyed)
    ensures forall k: FilterKey :: k in FILTERS ==>
              && Selected(q)[k] == Picked(Promoted(r), k)
              && (Picked(Promoted(r), k) != [] ==> Matched(q)[k] == Sense(Promoted(r), k))
  {
    hide Values, NormalValues, NormalKeyedItem, KeyedFilters, ListSize, AscendingKeyed, RawItems, AddAll, ActiveItems, PrimaryState, FILTERS;
    StateIsPromoted(r);
    PromotedNormal(r);
    KeyedAgain(Promoted(r).keyed);
    hide Promoted, NormalKeyed, Picked;
    forall k: FilterKey | k in FILTERS
      ensures Values(k, ValuesOf(q.filters, k)) == Accepted(Picked(Promoted(r), k)) && MatchingOf(q.matching, k).Chosen?
      ensures Picked(Promoted(r), k) != [] ==> MatchingOf(q.matching, k) == Chosen(Sense(Promoted(r), k))
    {
      NormalValuesAgain(k, Picked(Promoted(r), k));
    }
    NoFilterError(q, FILTERS);
  }

  lemma FirstActive(r: Report)
    requires Normal(r) && ActiveItems(r.keyed) != []
    ensures NormalValues(Tag, ActiveItems(r.keyed)[0].values)
  {
    ActiveOf(r.keyed);
    hide ActiveItems, AscendingKeyed, ListSize;
    assert ActiveItems(r.keyed)[0] in ActiveItems(r.keyed);
  }

  lemma PromotedPicked(r: Report, k: FilterKey)
    ensures Picked(Promoted(r), k) == if k.Tag? && Picked(r, Tag) == [] && ActiveItems(r.keyed) != [] then ActiveItems(r.keyed)[0].values else Picked(r, k)
  {
    hide ActiveItems;
  }

  lemma PromotedValues(r: Report, k: FilterKey)
    requires Normal(r)
    ensures NormalValues(k, Picked(Promoted(r), k))
  {
    assert NormalValues(k, r.selected[k]) && Picked(r, k) == r.selected[k];
    PromotedPicked(r, k);
    hide NormalKeyed, NormalValues, ActiveItems, Promoted, Picked;
    if ActiveItems(r.keyed) != [] {
      FirstActive(r);
    }
  }

  lemma PromotedNormal(r: Report)
    requires Normal(r)
    ensures NormalKeyed(Promoted(r).keyed) && forall k: FilterKey :: NormalValues(k, Picked(Promoted(r), k))
  {
    hide NormalKeyed, NormalValues, ActiveItems, Picked;
    ActiveNormal(r.keyed);
    forall k: FilterKey
      ensures NormalValues(k, Picked(Promoted(r), k))
    {
      PromotedValues(r, k);
    }
  }

  // --- The round trip ------------------------------------------------------------------------------------

  lemma {:induction false} ExportCount(r: Report, keys: seq<FilterKey>, items: seq<Keyed>)
    ensures |ExportPrimary(r, keys)| <= |keys| && |ExportKeyed(items)| <= |items|
    decreases |keys| + |items|
  {
    hide Picked, Sense, Plain;
    if keys != [] {
      ExportCount(r, keys[..|keys| - 1], items);
    } else if items != [] {
      ExportCount(r, keys, items[..|items| - 1]);
    }
    if keys != [] && items != [] {
      ExportCount(r, [], items);
    }
  }

  lemma NormalIsClean(r: Report)
    requires Normal(r)
    ensures CleanValues(r)
  {
    forall k: FilterKey
      ensures "" !in Picked(r, k)
    {
      assert NormalValues(k, r.selected[k]);
    }
  }

  /** The exported filters are all read back. */
  lemma ImportsExported(r: Report)
    requires NoAbsence(r) && Normal(r) && Picked(r, CostCategory) == [] && (Picked(r, Tag) != [] ==> r.tagKey != "")
    requires forall k :: k in r.keyed && Active(k) ==> k.kind.TagKey?
    ensures ImportFilters(ExportFilters(r)) == Linked(ImportedState(r))
    ensures |ExportFilters(r)| <= |FILTERS| + MAX_KEYED
  {
    hide Picked, Sense, FILTERS, NormalValues, AscendingKeyed, ListSize, AddAll, ActiveItems, PrimaryState, ImportFilter, ImportFilters, ExportPrimary,
      ExportKeyed, CleanValues, Active;
    PositionAt(0);
    ExportCount(r, FILTERS, r.keyed);
    NormalIsClean(r);
    assert FILTERS[..19] == FILTERS;
    ImportsPrimary(r, 19);
    ImportsKeyed(ExportPrimary(r, FILTERS), PrimaryState(r, FILTERS), r.keyed);
    assert ExportAbsence(r) == [];
    assert ExportFilters(r) == ExportPrimary(r, FILTERS) + ExportKeyed(r.keyed);
  }

  ghost predicate Handed(r: Report, today: Date)
    requires today.Valid()
  {
    && Fixed(r, today) && Normal(r) && ExportError(r, today).None? && NoAbsence(r) && !r.measure.Usage?
  }

  /** Field by field, the query of the imported link. */
  lemma ImportedShape(r: Report, s: Imported, today: Date)
    requires today.Valid() && r.name != "" && !r.untagged && !r.uncategorized && !r.measure.Usage?
    requires r.mode.Compare? && r.comparison.MonthOverMonth? ==> r.granularity.Monthly?
    ensures
      var q := ImportedQuery(r, s, today);
      && q.filters == s.selected && q.keyed == KeyedList(s.additional)
      && q.matching == (map k | k in s.matching :: Chosen(s.matching[k]))
      && q.granularity == Chosen(r.granularity) && q.mode == Chosen(r.mode)
      && q.chart == Chosen(r.chart) && q.metric == Chosen(r.metric) && q.measure == Chosen(r.measure) && q.currency == USD
      && q.name == r.name && q.forecast == Some(r.forecast) && q.normalized == r.normalized
      && !q.untagged && !q.uncategorized && q.tagKey == s.tagKey && q.categoryKey == ""
  {
    hide ExportFilters, ImportGroup;
  }

  lemma ImportedGroup(r: Report, s: Imported, today: Date)
    requires today.Valid() && GroupOffered(r.groupBy) && r.groupBy != By(CostCategory)
    ensures
      var q := ImportedQuery(r, s, today);
      q.groupBy == Chosen(r.groupBy) && q.groupKey == if r.groupBy == By(Tag) then r.groupKey else ""
  {
    hide ExportFilters;
  }

  lemma ImportedComparison(r: Report, s: Imported, today: Date)
    requires today.Valid()
    requires r.mode.Compare? ==> r.compareStart.On? && r.compareEnd.On?
    requires r.mode.Compare? && r.comparison.MonthOverMonth? ==>
               r.compareStart == On(First(today.month - 2)) && r.compareEnd == On(Last(today.month - 2))
    ensures
      var q := ImportedQuery(r, s, today);
      && q.comparison.Chosen?
      && (r.mode.Compare? ==> !q.comparison.value.PreviousPeriod? && q.compareStart == r.compareStart && q.compareEnd == r.compareEnd)
  {
    hide ExportFilters, ImportGroup;
  }

  lemma ComparisonSet(r: Report, today: Date)
    requires today.Valid() && r.start.Valid() && WithComparison(r, today) == Accepted(r) && r.mode.Compare?
    ensures r.compareStart.On? && r.compareEnd.On?
  {
    hide Preceding, Ordinal, Picked, ByResource, PlusDays;
  }

  lemma AllKeys(r: Report)
    requires Normal(r)
    ensures forall k: FilterKey :: k in r.selected && k in r.matching
  {
    hide NormalValues, NormalKeyed;
  }

  lemma TagsOnly(r: Report, today: Date)
    requires today.Valid() && ExportError(r, today).None?
    ensures forall k :: k in r.keyed && Active(k) ==> k.kind.TagKey?
    ensures r.groupBy != By(CostCategory) && Picked(r, CostCategory) == []
  {
    hide Picked, Sense, Active;
  }

  lemma TagKeyFits(r: Report, today: Date)
    requires Normal(r) && |r.tagKey| <= MAX_NAME
    ensures |Promoted(r).tagKey| <= MAX_NAME
  {
    ActiveOf(r.keyed);
    hide ActiveItems, AscendingKeyed, ListSize, NormalValues;
    if ActiveItems(r.keyed) != [] {
      assert ActiveItems(r.keyed)[0] in ActiveItems(r.keyed);
    }
  }

  lemma PromotedKinds(r: Report)
    requires forall k :: k in r.keyed && Active(k) ==> k.kind.TagKey?
    ensures forall k :: k in Promoted(r).keyed ==> k.kind.TagKey?
  {
    ActiveOf(r.keyed);
    hide ActiveItems, Active;
  }

  lemma PromotedPlain(r: Report)
    ensures
      var p := Promoted(r);
      && p == r.(selected := p.selected, matching := p.matching, tagKey := p.tagKey, keyed := p.keyed)
      && Picked(p, CostCategory) == Picked(r, CostCategory)
  {
    hide ActiveItems;
  }

  /** Every field of the query reads as the field of the promoted report. */
  ghost predicate Mirrors(r: Report, p: Report, q: Query) {
    && q.granularity == Chosen(r.granularity) && q.mode == Chosen(r.mode) && q.groupBy == Chosen(r.groupBy)
    && q.groupKey == (if r.groupBy == By(Tag) then r.groupKey else "")
    && q.metric == Chosen(r.metric) && q.measure == Chosen(r.measure) && q.forecast == Some(r.forecast) && q.normalized == r.normalized
    && !q.untagged && !q.uncategorized
    && KeyedFilters(q.keyed) == Accepted(p.keyed)
    && (Picked(p, Tag) != [] ==> q.tagKey == p.tagKey)
    && FilterError(q, FILTERS).None?
    && forall k: FilterKey :: k in FILTERS ==>
         && Selected(q)[k] == Picked(p, k)
         && (Picked(p, k) != [] ==> Matched(q)[k] == Sense(p, k))
  }

  lemma MirroredFilters(r: Report, p: Report, q: Query, b: Report)
    requires Mirrors(r, p, q) && b.selected == Selected(q) && b.matching == Matched(q)
    ensures forall k: FilterKey :: Picked(p, k) == Picked(b, k) && (Picked(p, k) != [] ==> Sense(p, k) == Sense(b, k))
  {
    hide KeyedFilters, Values, FilterError;
    forall k: FilterKey
      ensures Picked(b, k) == Picked(p, k) && (Picked(b, k) != [] ==> Sense(b, k) == Sense(p, k))
    {
      FiltersComplete(k);
      hide FILTERS;
    }
  }

  lemma MirroredFields(r: Report, p: Report, q: Query)
    requires Mirrors(r, p, q)
    ensures q.groupKey == if r.groupBy == By(Tag) then r.groupKey else ""
    ensures KeyedFilters(q.keyed) == Accepted(p.keyed) && (Picked(p, Tag) != [] ==> q.tagKey == p.tagKey)
  {
    hide KeyedFilters, Picked, Selected, Matched, FilterError, FILTERS;
  }

  /** Fields that read alike make reports that are alike. */
  lemma ReadsAlike(r: Report, q: Query, b: Report)
    requires !r.untagged && !r.uncategorized && r.groupBy != By(CostCategory) && Picked(r, CostCategory) == []
    requires forall k :: k in r.keyed && Active(k) ==> k.kind.TagKey?
    requires Mirrors(r, Promoted(r), q)
    requires b.selected == Selected(q) && b.matching == Matched(q) && b.keyed == KeyedFilters(q.keyed).value && b.tagKey == q.tagKey
    requires b.start == r.start && b.end == r.end && b.granularity == r.granularity && b.mode == r.mode && b.groupBy == r.groupBy
    requires b.groupKey == q.groupKey && b.metric == r.metric && b.measure == r.measure && b.normalized == r.normalized
    requires b.forecast == r.forecast && !b.untagged && !b.uncategorized
    ensures Alike(Promoted(r), b)
  {
    hide KeyedFilters, Promoted, ActiveItems, Picked, Sense, Selected, Matched, FilterError, FILTERS, Mirrors;
    PromotedKinds(r);
    PromotedPlain(r);
    MirroredFilters(r, Promoted(r), q, b);
    MirroredFields(r, Promoted(r), q);
  }

  /** The query of the imported link reads as a report like the promoted one. */
  lemma ImportedReads(r: Report, s: Imported, today: Date)
    requires today.Valid() && Handed(r, today)
    requires s == ImportedState(r)
    ensures
      var q := ImportedQuery(r, s, today);
      && ReadError(q, today).None? && Alike(Promoted(r), Read(q, today))
      && (r.mode.Compare? ==> !Read(q, today).comparison.PreviousPeriod?
                              && Read(q, today).compareStart == r.compareStart && Read(q, today).compareEnd == r.compareEnd)
  {
    hide Fixed, Normal, ImportedQuery, ResolveDates, RangeError, FilterError, KeyedFilters, Selected, Matched, FILTERS, RawItems, ListSize,
      AddAll, PrimaryState, ActiveItems, Picked, Sense, Promoted, Alike;
    var q := ImportedQuery(r, s, today);
    GroupIsOffered(r, today);
    FixedDates(r, today);
    if r.mode.Compare? {
      FixedParts(r, today);
      ComparisonSet(r, today);
      if r.comparison.MonthOverMonth? {
        FixedMonthOverMonth(r, today);
      }
    }
    TagsOnly(r, today);
    ImportedShape(r, s, today);
    ImportedGroup(r, s, today);
    ImportedComparison(r, s, today);
    ImportedDates(r, s, today);
    ImportedFilters(q, r, s);
    AllKeys(r);
    StateIsPromoted(r);
    TagKeyFits(r, today);
    assert ReadError(q, today).None?;
    assert Mirrors(r, Promoted(r), q);
    ReadsAlike(r, q, Read(q, today));
  }

  lemma GroupIsOffered(r: Report, today: Date)
    requires today.Valid() && Fixed(r, today)
    ensures GroupOffered(r.groupBy) && r.name != "" && |r.name| <= MAX_NAME && |r.groupKey| <= MAX_NAME && |r.tagKey| <= MAX_NAME
  {
    hide FilterError, KeyedFilters, RangeError, ResolveDates, Checked, Read, FILTERS, RawItems, ListSize;
    assert MonthOverMonthQuery(WithDefaults(QueryOf(r)), today) == QueryOf(r);
  }

  lemma FixedIsNormal(r: Report, today: Date)
    requires today.Valid() && Fixed(r, today)
    ensures Normal(r)
  {
    ReadIsNormal(QueryOf(r), today);
    hide ReadError, QueryOf, Checked, Normal, WithDefaults, MonthOverMonthQuery;
  }

  /** The report that comes back passes the checks unchanged. */
  lemma ImportedChecks(r: Report, b: Report, today: Date)
    requires today.Valid() && Handed(r, today) && b.start.Valid() && Alike(Promoted(r), b)
    requires r.mode.Compare? ==> !b.comparison.PreviousPeriod? && b.compareStart == r.compareStart && b.compareEnd == r.compareEnd
    ensures Checked(b, today) == Accepted(b)
  {
    FixedParts(r, today);
    TagsOnly(r, today);
    FixedDates(r, today);
    hide Fixed, RuleError, FutureError, WithComparison, ExportError;
    PromotedChecks(r, today);
    AlikeChecks(Promoted(r), b, today);
    PromotedPlain(r);
    PromotedPicked(r, Resource);
    hide Promoted, ActiveItems;
    ComparisonKept(r, b, today);
    hide Alike, Normal, Handed, NoAbsence;
  }

  lemma SameAfterPromotion(r: Report, b: Report, today: Date)
    requires today.Valid() && NoAbsence(r) && ExportError(r, today).None? && r.end.Valid() && Alike(Promoted(r), b)
    ensures b.end.Valid() && SameRequest(AwsRequest(b), AwsRequest(r))
  {
    TagsOnly(r, today);
    PromotedExpression(r);
    PromotedPlain(r);
    PromotedPicked(r, Resource);
    hide ExportError, Promoted, ActiveItems, Expression, PlusDays;
    AlikeRequests(Promoted(r), b);
  }

  lemma ImportsReport(r: Report, s: Imported, today: Date) returns (b: Report)
    requires today.Valid() && Handed(r, today)
    requires s == ImportedState(r)
    ensures Normalize(QueryOfLink(LinkOf(r), s), today) == Accepted(b) && Alike(Promoted(r), b)
  {
    FixedDates(r, today);
    hide Handed, FILTERS, ReadError, Read, Checked, Alike, Promoted, AddAll, PrimaryState, ActiveItems, MonthOverMonthQuery, WithDefaults,
      QueryOfLink, Fixed;
    ImportedReads(r, s, today);
    b := Read(ImportedQuery(r, s, today), today);
    StartsAlike(r, b);
    ImportedChecks(r, b, today);
  }

  /** Nothing but the report itself can be refused in an exported link. */
  lemma LinkWellFormed(r: Report)
    requires r.groupBy != By(CostCategory)
    ensures
      var link := LinkOf(r);
      && !link.historical.Unknown? && !link.future.Unknown? && |link.groups| <= 1
      && (link.groups != [] ==> !link.groups[0].LinkCategory?) && link.filters == ExportFilters(r)
  {
    hide ExportFilters;
  }

  lemma ImportsLink(r: Report, today: Date) returns (b: Report)
    requires today.Valid() && Handed(r, today)
    ensures Import(LinkOf(r), today) == Linked(b) && Alike(Promoted(r), b)
  {
    hide Fixed, Normal, NoAbsence, ExportError, RuleError, WithComparison, FutureError, FILTERS, Alike, Promoted, LinkOf, Normalize,
      ImportFilters, ExportFilters, AddAll, PrimaryState, ActiveItems, MonthOverMonthQuery, WithDefaults, QueryOfLink, Picked, Sense;
    FixedParts(r, today);
    TagsOnly(r, today);
    RulesHold(r, today);
    ImportsExported(r);
    LinkWellFormed(r);
    b := ImportsReport(r, ImportedState(r), today);
  }

  lemma StartsAlike(r: Report, b: Report)
    requires Alike(Promoted(r), b)
    ensures b.start == r.start && b.end == r.end
  {
    PromotedPlain(r);
    hide Promoted, ActiveItems;
  }

  /** A report that can be exported, without absence filters and not of usage alone, comes back
      from its console link as a report that asks AWS for the same data on the same day: same
      operation, days, granularity, metric, grouping and conjuncts, in another order at most,
      even when an additional tag key comes back as the primary one. */
  lemma LinkRoundTrip(q: Query, today: Date)
    requires today.Valid() && Export(q, today).Linked?
    requires NoAbsence(Normalize(q, today).value) && !Normalize(q, today).value.measure.Usage?
    ensures
      var r, imported := Normalize(q, today).value, Import(Export(q, today).value, today);
      && imported.Linked? && r.end.Valid() && imported.value.end.Valid()
      && SameRequest(AwsRequest(imported.value), AwsRequest(r))
  {
    NormalizedIsFixed(q, today);
    var r := Normalize(q, today).value;
    FixedIsNormal(r, today);
    FixedDates(r, today);
    hide Fixed, Normalize, Normal, NoAbsence, LinkOf, Import, AwsRequest, Promoted, Alike, SameRequest;
    var b := ImportsLink(r, today);
    SameAfterPromotion(r, b, today);
  }
}
