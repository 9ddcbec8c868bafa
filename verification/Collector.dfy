/** Collection of one source as one thread runs it: fetch a month page by page, publish it
    atomically, go through the requested months and resume. */
module Collector {
  import opened Options
  import opened Calendar
  import opened JobTable
  import opened Protocol
  import opened ProtocolInvariants
  import opened Aws

  // --- Fetching ------------------------------------------------------------------------------

  datatype Amount = Finite(value: int) | NotFinite
  datatype Group = Group(account: AccountId, service: string, unit: string, amortizedUnit: string,
                         unblended: Amount, amortized: Amount)
  datatype DayCosts = DayCosts(day: Date, estimated: bool, groups: seq<Group>)
  type Page = Aws.Page<seq<DayCosts>>

  datatype Violation = OutsideInterval | OutsideAccount | CurrencyMismatch | NonFinite
  datatype FetchError = LeaseLost | RequestFailed | RequestLimit | RepeatedToken | Invalid(violation: Violation)

  /** The request: the source it is made for, the half-open interval of days and the one
      account a single-account connection may see. */
  datatype Request = Request(source: SourceId, first: Date, last: Date, account: Option<AccountId>)

  function GroupError(q: Request, g: Group): Option<Violation> {
    if q.account.Some? && g.account != q.account.value then Some(OutsideAccount)
    else if g.unit != g.amortizedUnit then Some(CurrencyMismatch)
    else if g.unblended.NotFinite? || g.amortized.NotFinite? then Some(NonFinite)
    else None
  }

  function GroupsError(q: Request, groups: seq<Group>): Option<Violation> {
    if groups == [] then None
    else
      var rest := GroupsError(q, groups[..|groups| - 1]);
      if rest.Some? then rest else GroupError(q, groups[|groups| - 1])
  }

  function DayError(q: Request, d: DayCosts): Option<Violation> {
    if !(q.first.NotAfter(d.day) && d.day.Before(q.last)) then Some(OutsideInterval) else GroupsError(q, d.groups)
  }

  /** The first violation of a page, in reading order. */
  function DaysError(q: Request, days: seq<DayCosts>): Option<Violation> {
    if days == [] then None
    else
      var rest := DaysError(q, days[..|days| - 1]);
      if rest.Some? then rest else DayError(q, days[|days| - 1])
  }

  function Record(q: Request, d: DayCosts, g: Group): CostRow
    requires g.unblended.Finite? && g.amortized.Finite?
  {
    CostRow(q.source, d.day, g.account, g.service, g.unit, g.unblended.value, g.amortized.value, d.estimated)
  }

  function GroupRecords(q: Request, d: DayCosts, groups: seq<Group>): seq<CostRow>
    requires GroupsError(q, groups).None?
  {
    if groups == [] then []
    else GroupRecords(q, d, groups[..|groups| - 1]) + [Record(q, d, groups[|groups| - 1])]
  }

  function DayRecords(q: Request, days: seq<DayCosts>): seq<CostRow>
    requires DaysError(q, days).None?
  {
    if days == [] then []
    else
      var d := days[|days| - 1];
      DayRecords(q, days[..|days| - 1]) + GroupRecords(q, d, d.groups)
  }

  /** The days of consecutive pages. */
  function AllDays(pages: seq<Page>): seq<DayCosts> {
    if pages == [] then [] else AllDays(pages[..|pages| - 1]) + pages[|pages| - 1].content
  }

  // --- What the answers say -----------------------------------------------------------------

  /** A violation of a group: another account than the one asked for, two units, or an amount that is
      no number, in that order. */
  predicate Violates(q: Request, g: Group, v: Violation) {
    var inside := q.account.None? || g.account == q.account.value;
    match v
    case OutsideInterval => false
    case OutsideAccount => !inside
    case CurrencyMismatch => inside && g.unit != g.amortizedUnit
    case NonFinite => inside && g.unit == g.amortizedUnit && !(g.unblended.Finite? && g.amortized.Finite?)
  }

  predicate Proper(q: Request, g: Group) {
    (q.account.Some? ==> g.account == q.account.value) && g.unit == g.amortizedUnit && g.unblended.Finite? && g.amortized.Finite?
  }

  predicate InInterval(q: Request, d: DayCosts) {
    q.first.NotAfter(d.day) && d.day.Before(q.last)
  }

  lemma {:induction false} GroupsAccepted(q: Request, groups: seq<Group>)
    ensures GroupsError(q, groups).None? <==> forall g :: g in groups ==> Proper(q, g)
    ensures forall v :: GroupsError(q, groups) == Some(v) ==> exists g :: g in groups && Violates(q, g, v)
  {
    if groups != [] {
      var rest, g := groups[..|groups| - 1], groups[|groups| - 1];
      GroupsAccepted(q, rest);
      assert groups == rest + [g] && g in groups;
      assert forall h :: h in groups <==> h in rest || h == g;
      assert GroupError(q, g).None? <==> Proper(q, g);
      assert GroupError(q, g).Some? ==> Violates(q, g, GroupError(q, g).value);
    }
  }

  /** Days are accepted exactly if all lie in the interval asked for and all their groups are proper; a
      refusal names a violation that is there. */
  lemma {:induction false} AcceptedExactly(q: Request, days: seq<DayCosts>)
    ensures DaysError(q, days).None? <==>
              forall d :: d in days ==> InInterval(q, d) && forall g :: g in d.groups ==> Proper(q, g)
    ensures forall v :: DaysError(q, days) == Some(v) ==>
              exists d :: d in days &&
                          if v.OutsideInterval? then !InInterval(q, d) else InInterval(q, d) && exists g :: g in d.groups && Violates(q, g, v)
  {
    if days != [] {
      var d := days[|days| - 1];
      AcceptedExactly(q, days[..|days| - 1]);
      GroupsAccepted(q, d.groups);
      assert days == days[..|days| - 1] + [d];
      hide GroupsError, Proper, Violates;
    }
  }

  /** One group of a day's answer. */
  datatype Line = Line(day: DayCosts, group: Group)

  function LinesOf(d: DayCosts, groups: seq<Group>): (lines: seq<Line>)
    ensures |lines| == |groups| && forall k :: 0 <= k < |groups| ==> lines[k] == Line(d, groups[k])
  {
    seq(|groups|, k requires 0 <= k < |groups| => Line(d, groups[k]))
  }

  /** Every group of every day, in the order of the answer. */
  function Lines(days: seq<DayCosts>): seq<Line> {
    if days == [] then [] else Lines(days[..|days| - 1]) + LinesOf(days[|days| - 1], days[|days| - 1].groups)
  }

  /** The record says what the group says. */
  predicate Copies(q: Request, line: Line, r: CostRow) {
    && r.source == q.source && r.day == line.day.day && (r.estimated <==> line.day.estimated)
    && r.account == line.group.account && r.service == line.group.service && r.currency == line.group.unit
    && line.group.unblended == Finite(r.unblended) && line.group.amortized == Finite(r.amortized)
  }

  ghost predicate Transcript(q: Request, lines: seq<Line>, records: seq<CostRow>) {
    |records| == |lines| && forall k :: 0 <= k < |lines| ==> Copies(q, lines[k], records[k])
  }

  lemma {:induction false} GroupsTranscribed(q: Request, d: DayCosts, groups: seq<Group>)
    requires GroupsError(q, groups).None?
    ensures Transcript(q, LinesOf(d, groups), GroupRecords(q, d, groups))
  {
    if groups != [] {
      GroupsTranscribed(q, d, groups[..|groups| - 1]);
    }
  }

  /** The records are the groups of the answers, one for one and in order, each with its own account,
      service, currency and two amounts and the flag of its day. */
  lemma {:induction false} RecordsTranscribed(q: Request, days: seq<DayCosts>)
    requires DaysError(q, days).None?
    ensures Transcript(q, Lines(days), DayRecords(q, days))
  {
    if days != [] {
      RecordsTranscribed(q, days[..|days| - 1]);
      GroupsTranscribed(q, days[|days| - 1], days[|days| - 1].groups);
    }
  }

  /** Lines are exactly the groups of the days. */
  lemma {:induction false} LinesListed(days: seq<DayCosts>, line: Line)
    ensures line in Lines(days) <==> line.day in days && line.group in line.day.groups
  {
    if days != [] {
      var d := days[|days| - 1];
      LinesListed(days[..|days| - 1], line);
      assert days == days[..|days| - 1] + [d];
      var last := LinesOf(d, d.groups);
      if line.day == d && line.group in d.groups {
        var k :| 0 <= k < |d.groups| && d.groups[k] == line.group;
        assert last[k] == line;
      }
    }
  }

  function LineTotal(lines: seq<Line>, currency: string, amount: Group -> Amount): int {
    if lines == [] then 0
    else
      var g := lines[|lines| - 1].group;
      LineTotal(lines[..|lines| - 1], currency, amount) + if g.unit == currency && amount(g).Finite? then amount(g).value else 0
  }

  function RecordTotal(records: seq<CostRow>, currency: string, amount: CostRow -> int): int {
    if records == [] then 0
    else
      var r := records[|records| - 1];
      RecordTotal(records[..|records| - 1], currency, amount) + if r.currency == currency then amount(r) else 0
  }

  /** So no money is lost or made up: per currency each of the two metrics adds up to what the answers
      add up to. */
  lemma {:induction false} TotalsKept(q: Request, lines: seq<Line>, records: seq<CostRow>, currency: string)
    requires Transcript(q, lines, records)
    ensures RecordTotal(records, currency, (r: CostRow) => r.unblended) == LineTotal(lines, currency, (g: Group) => g.unblended)
    ensures RecordTotal(records, currency, (r: CostRow) => r.amortized) == LineTotal(lines, currency, (g: Group) => g.amortized)
  {
    if lines != [] {
      TotalsKept(q, lines[..|lines| - 1], records[..|records| - 1], currency);
    }
  }

  lemma {:induction false} DaysErrorConcat(q: Request, a: seq<DayCosts>, b: seq<DayCosts>)
    ensures DaysError(q, a + b) == if DaysError(q, a).Some? then DaysError(q, a) else DaysError(q, b)
    ensures DaysError(q, a + b).None? ==> DayRecords(q, a + b) == DayRecords(q, a) + DayRecords(q, b)
  {
    if b == [] {
      assert a + b == a;
    } else {
      DaysErrorConcat(q, a, b[..|b| - 1]);
      assert (a + b)[..|a + b| - 1] == a + b[..|b| - 1];
    }
  }

  /** What publication relies on: every fetched record lies inside the requested interval and
      account, so a month's records belong to that month of that source. */
  lemma {:induction false} RecordsInScope(q: Request, days: seq<DayCosts>, r: CostRow)
    requires DaysError(q, days).None? && r in DayRecords(q, days)
    ensures r.source == q.source && q.first.NotAfter(r.day) && r.day.Before(q.last)
    ensures q.account.Some? ==> r.account == q.account.value
  {
    var d := days[|days| - 1];
    if r in DayRecords(q, days[..|days| - 1]) {
      RecordsInScope(q, days[..|days| - 1], r);
    } else {
      GroupRecordsInScope(q, d, d.groups, r);
    }
  }

  lemma {:induction false} GroupRecordsInScope(q: Request, d: DayCosts, groups: seq<Group>, r: CostRow)
    requires GroupsError(q, groups).None? && r in GroupRecords(q, d, groups)
    ensures r.source == q.source && r.day == d.day && (q.account.Some? ==> r.account == q.account.value)
  {
    if r in GroupRecords(q, d, groups[..|groups| - 1]) {
      GroupRecordsInScope(q, d, groups[..|groups| - 1], r);
    }
  }

  /** So a fetched month is a batch the protocol accepts. */
  lemma FetchedMonthIsBatch(q: Request, conn: Connection, m: Month, days: seq<DayCosts>)
    requires DaysError(q, days).None?
    requires q.first == First(m) && q.last.NotAfter(First(m + 1))
    requires conn.kind == Standalone ==> q.account == Some(conn.account)
    requires forall d :: d in days ==> d.day.Valid()
    ensures BatchOf(conn, q.source, m, DayRecords(q, days))
  {
    forall r | r in DayRecords(q, days)
      ensures r.source == q.source && r.day.month == m && (conn.kind == Standalone ==> r.account == conn.account)
    {
      RecordsInScope(q, days, r);
      RecordDayListed(q, days, r);
    }
  }

  lemma {:induction false} RecordDayListed(q: Request, days: seq<DayCosts>, r: CostRow)
    requires DaysError(q, days).None? && r in DayRecords(q, days)
    ensures exists d :: d in days && d.day == r.day
  {
    var d := days[|days| - 1];
    if r in DayRecords(q, days[..|days| - 1]) {
      RecordDayListed(q, days[..|days| - 1], r);
    } else {
      GroupRecordsInScope(q, d, d.groups, r);
    }
  }

  datatype Fetch = Fetched(records: seq<CostRow>, days: set<Date>, estimated: bool) | Rejected(error: FetchError)

  /** The groups of one day. */
  method ReadGroups(q: Request, d: DayCosts) returns (error: Option<Violation>, records: seq<CostRow>)
    ensures error == GroupsError(q, d.groups)
    ensures error.None? ==> records == GroupRecords(q, d, d.groups) && Transcript(q, LinesOf(d, d.groups), records)
  {
    hide Transcript;
    error, records := None, [];
    for k := 0 to |d.groups|
      invariant GroupsError(q, d.groups[..k]).None?
      invariant records == GroupRecords(q, d, d.groups[..k])
    {
      assert d.groups[..k + 1][..k] == d.groups[..k];
      var violation := GroupError(q, d.groups[k]);
      if violation.Some? {
        FirstGroupsError(q, d.groups, k + 1);
        return violation, records;
      }
      records := records + [Record(q, d, d.groups[k])];
    }
    assert d.groups[..|d.groups|] == d.groups;
    GroupsTranscribed(q, d, d.groups);
  }

  /** The loop body of `fetch_month` for one page. */
  method ReadPage(q: Request, page: Page) returns (error: Option<Violation>, records: seq<CostRow>)
    ensures error == DaysError(q, page.content)
    ensures error.None? ==> records == DayRecords(q, page.content) && Transcript(q, Lines(page.content), records)
  {
    hide Transcript, Lines;
    error, records := None, [];
    for i := 0 to |page.content|
      invariant DaysError(q, page.content[..i]).None? && records == DayRecords(q, page.content[..i])
    {
      var d := page.content[i];
      assert page.content[..i + 1][..i] == page.content[..i];
      if !(q.first.NotAfter(d.day) && d.day.Before(q.last)) {
        FirstDaysError(q, page.content, i + 1);
        return Some(OutsideInterval), records;
      }
      var violation, more := ReadGroups(q, d);
      if violation.Some? {
        FirstDaysError(q, page.content, i + 1);
        return violation, records;
      }
      records := records + more;
    }
    assert page.content[..|page.content|] == page.content;
    RecordsTranscribed(q, page.content);
  }

  lemma {:induction false} FirstGroupsError(q: Request, groups: seq<Group>, n: nat)
    requires n <= |groups| && GroupsError(q, groups[..n]).Some?
    ensures GroupsError(q, groups) == GroupsError(q, groups[..n])
  {
    if n < |groups| {
      assert groups[..|groups| - 1][..n] == groups[..n];
      FirstGroupsError(q, groups[..|groups| - 1], n);
    } else {
      assert groups[..n] == groups;
    }
  }

  lemma {:induction false} FirstDaysError(q: Request, days: seq<DayCosts>, n: nat)
    requires n <= |days| && DaysError(q, days[..n]).Some?
    ensures DaysError(q, days) == DaysError(q, days[..n])
  {
    if n < |days| {
      assert days[..|days| - 1][..n] == days[..n];
      FirstDaysError(q, days[..|days| - 1], n);
    } else {
      assert days[..n] == days;
    }
  }

  /** What has been read so far: valid pages, their records, days and estimation flag. */
  ghost predicate Read(q: Request, pages: seq<Page>, fetch: Fetch) {
    && fetch.Fetched?
    && DaysError(q, AllDays(pages)).None?
    && fetch.records == DayRecords(q, AllDays(pages))
    && fetch.days == (set d | d in AllDays(pages) :: d.day)
    && (fetch.estimated <==> exists d :: d in AllDays(pages) && d.estimated)
  }

  /** So the records transcribe the answers of all pages in order. */
  lemma ReadTranscript(q: Request, pages: seq<Page>, fetch: Fetch)
    requires Read(q, pages, fetch)
    ensures Transcript(q, Lines(AllDays(pages)), fetch.records)
  {
    RecordsTranscribed(q, AllDays(pages));
  }

  lemma ReadNext(q: Request, pages: seq<Page>, fetch: Fetch, page: Page)
    requires Read(q, pages, fetch)
    ensures DaysError(q, AllDays(pages + [page])) == DaysError(q, page.content)
    ensures DaysError(q, page.content).None? ==>
              Read(q, pages + [page],
                   Fetched(fetch.records + DayRecords(q, page.content),
                           fetch.days + (set d | d in page.content :: d.day),
                           fetch.estimated || exists d :: d in page.content && d.estimated))
  {
    AllDaysNext(pages, page);
    DaysErrorConcat(q, AllDays(pages), page.content);
    hide AllDays, DaysError, DayRecords;
  }

  lemma AllDaysNext(pages: seq<Page>, page: Page)
    ensures AllDays(pages + [page]) == AllDays(pages) + page.content
  {
    assert (pages + [page])[..|pages|] == pages;
  }

  ghost predicate Beating(live: nat -> bool, n: nat) {
    forall i :: 0 <= i < n ==> live(i)
  }

  /** Fetch one month. `live` says, for each heartbeat in turn, whether the lease was still
      held; `pages` are the pages read, one heartbeat before and one after each. */
  method FetchMonth(meter: Meter, q: Request, replies: seq<Reply<Page>>, live: nat -> bool)
    returns (fetch: Fetch, ghost pages: seq<Page>, ghost read: nat)
    modifies meter
    ensures meter.limit > 0 && old(meter.requests) <= meter.limit ==> meter.requests <= meter.limit
    ensures meter.pages == old(meter.pages) + |pages|
    ensures pages == Answers(replies, read) && Linked(pages) && forall n: nat :: n < read ==> !GaveUp(replies, n)
    // Success: the last page has no token and the records are those of all pages, in order.
    ensures fetch.Fetched? ==>
              && pages != [] && pages[|pages| - 1].token == "" && Read(q, pages, fetch) && Beating(live, 2 * |pages|)
              && Transcript(q, Lines(AllDays(pages)), fetch.records)
    // Failure: a lost lease, a failed request, a repeated token, or the first violation.
    ensures fetch.Rejected? ==>
              match fetch.error
              case LeaseLost => !Beating(live, 2 * |pages| + 1)
              case RequestFailed => GaveUp(replies, read)
              case RequestLimit => meter.limit > 0 && meter.requests >= meter.limit
              case RepeatedToken =>
                exists i :: 0 <= i < |pages| - 1 && pages[i].token == pages[|pages| - 1].token != ""
              case Invalid(violation) => DaysError(q, AllDays(pages)) == Some(violation)
  {
    hide Read, Chain, Linked, AllDays, DaysError, DayRecords, Answers, GoesOn, Transcript, Lines;
    pages, read := [], 0;
    NothingRead(replies);
    var records: seq<CostRow>, days: set<Date>, estimated := [], {}, false;
    var seen: set<string>, at: nat, beats: nat := {}, 0, 0;
    assert Read(q, pages, Fetched(records, days, estimated)) && Chain(pages, seen) by {
      EmptyRead(q);
      NothingChained<seq<DayCosts>>();
    }
    while true
      invariant meter.limit > 0 && old(meter.requests) <= meter.limit ==> meter.requests <= meter.limit
      invariant meter.pages == old(meter.pages) + |pages|
      invariant read == at && pages == Answers(replies, at) && GoesOn(replies, at)
      invariant Read(q, pages, Fetched(records, days, estimated)) && Chain(pages, seen)
      invariant beats == 2 * |pages| && Beating(live, beats)
      invariant at <= |replies|
      decreases |replies| - at
    {
      ghost var before := pages;
      if !live(beats) {
        ChainLinked(pages, seen);
        Steady(replies, at);
        return Rejected(LeaseLost), pages, read;
      }
      var result: CallResult<Page>, next := meter.Call(replies, at);
      ReadOn(replies, at, next);
      read := next;
      if result.BudgetExceeded? {
        ChainLinked(pages, seen);
        return Rejected(RequestLimit), pages, read;
      }
      if result.CallFailed? {
        ChainLinked(pages, seen);
        return Rejected(RequestFailed), pages, read;
      }
      var page := result.page;
      assert ReplyAt(replies, next - 1) == Answer(page);
      at := next;
      pages := pages + [page];
      ChainNext(before, seen, page);
      ReadNext(q, before, Fetched(records, days, estimated), page);
      if !live(beats + 1) {
        return Rejected(LeaseLost), pages, read;
      }
      beats := beats + 2;
      var error, more := ReadPage(q, page);
      if error.Some? {
        return Rejected(Invalid(error.value)), pages, read;
      }
      records := records + more;
      days := days + set d | d in page.content :: d.day;
      estimated := estimated || exists d :: d in page.content && d.estimated;
      if page.token == "" {
        ReadTranscript(q, pages, Fetched(records, days, estimated));
        return Fetched(records, days, estimated), pages, read;
      }
      if page.token in seen {
        return Rejected(RepeatedToken), pages, read;
      }
      seen := seen + {page.token};
    }
  }

  lemma EmptyRead(q: Request)
    ensures Read(q, [], Fetched([], {}, false))
  {
  }

  // --- Publishing and collecting -----------------------------------------------------------------

  datatype Publish = Stored(rows: nat) | ConnectionChanged | OutsideScope | OverlappingScope | DuplicateSlice

  function MonthRows(costs: set<CostRow>, s: SourceId, m: Month): set<CostRow> {
    set r | r in costs && InMonth(r, s, m)
  }

  /** No other source has a row of an account and day of the batch. */
  ghost predicate Unshared(costs: set<CostRow>, s: SourceId, batch: seq<CostRow>) {
    forall b, r :: b in batch && r in costs && r.account == b.account && r.day == b.day ==> r.source == s
  }

  predicate WithinScope(conn: Connection, batch: seq<CostRow>) {
    conn.kind == Standalone ==> forall r :: r in batch ==> r.account == conn.account
  }

  /** Why a publication is refused, in the order of the checks. */
  function Refusal(costs: set<CostRow>, conn: Connection, s: SourceId, batch: seq<CostRow>, live: bool, sameSource: bool):
    Option<Publish>
  {
    if !live || !sameSource then Some(ConnectionChanged)
    else if conn.kind == Standalone && exists r :: r in batch && r.account != conn.account then Some(OutsideScope)
    else if Overlaps(costs, s, batch) then Some(OverlappingScope)
    else if !DistinctSlices(batch) then Some(DuplicateSlice)
    else None
  }

  /** Nothing was fetched, or the source changed meanwhile, or the batch may not be stored beside the other costs. */
  ghost predicate Unpublishable(costs: set<CostRow>, conn: Connection, s: SourceId, fetched: Option<seq<CostRow>>, sameSource: bool) {
    fetched.None? || !sameSource || !WithinScope(conn, fetched.value) || !Unshared(costs, s, fetched.value) || !DistinctSlices(fetched.value)
  }

  predicate Ascending(months: seq<Month>) {
    forall i, j :: 0 <= i < j < |months| ==> months[i] <= months[j]
  }

  function Insert(m: Month, months: seq<Month>): (r: seq<Month>)
    requires Ascending(months)
    ensures Ascending(r) && forall k :: k in r <==> k == m || k in months
  {
    if months == [] || m <= months[0] then [m] + months
    else
      var rest := Insert(m, months[1..]);
      assert forall i :: 0 <= i < |rest| ==> rest[i] in rest;
      [months[0]] + rest
  }

  /** `sorted(m for m in months if m <= today)`. */
  function SortedUpTo(months: seq<Month>, limit: Month): (r: seq<Month>)
    ensures Ascending(r) && forall m :: m in r <==> m in months && m <= limit
  {
    if months == [] then []
    else
      var rest := SortedUpTo(months[1..], limit);
      if months[0] <= limit then Insert(months[0], rest) else rest
  }

  function Revision(periods: map<(SourceId, Month), Period>, s: SourceId, m: Month): nat {
    if (s, m) in periods then periods[(s, m)].revision else 0
  }

  /** What a run did between two tables: exactly the months that entered the progress became what
      was fetched for them, one revision later; every other month and source kept its rows. */
  ghost predicate Collects(s: SourceId, fetched: Month -> Option<seq<CostRow>>, completed: set<Month>, progress: set<Month>,
                           costs: set<CostRow>, periods: map<(SourceId, Month), Period>,
                           costs': set<CostRow>, periods': map<(SourceId, Month), Period>) {
    && completed <= progress
    && (forall m :: m in progress && m !in completed ==>
          && fetched(m).Some? && MonthRows(costs', s, m) == (set r | r in fetched(m).value)
          && Revision(periods', s, m) == Revision(periods, s, m) + 1)
    && (forall r: CostRow :: r.source != s || r.day.month in completed || r.day.month !in progress ==> (r in costs' <==> r in costs))
    && (forall k: SourceId, m: Month :: k != s || m in completed || m !in progress ==> Revision(periods', k, m) == Revision(periods, k, m))
  }

  lemma CollectsMore(s: SourceId, fetched: Month -> Option<seq<CostRow>>, completed: set<Month>, progress: set<Month>, m: Month,
                     costs: set<CostRow>, periods: map<(SourceId, Month), Period>,
                     costs': set<CostRow>, periods': map<(SourceId, Month), Period>,
                     costs'': set<CostRow>, periods'': map<(SourceId, Month), Period>)
    requires Collects(s, fetched, completed, progress, costs, periods, costs', periods')
    requires m !in progress && fetched(m).Some? && MonthRows(costs'', s, m) == (set r | r in fetched(m).value)
    requires forall r :: !InMonth(r, s, m) ==> (r in costs'' <==> r in costs')
    requires Revision(periods'', s, m) == Revision(periods', s, m) + 1
    requires forall k: SourceId, i: Month :: (k, i) != (s, m) ==> Revision(periods'', k, i) == Revision(periods', k, i)
    ensures Collects(s, fetched, completed, progress + {m}, costs, periods, costs'', periods'')
  {
    OtherMonthsKept(costs', costs'', s, m);
  }

  lemma CollectsNothing(s: SourceId, fetched: Month -> Option<seq<CostRow>>, completed: set<Month>, progress: set<Month>,
                        costs: set<CostRow>, periods: map<(SourceId, Month), Period>,
                        costs': set<CostRow>, periods': map<(SourceId, Month), Period>, periods'': map<(SourceId, Month), Period>)
    ensures Collects(s, fetched, completed, completed, costs, periods, costs, periods)
    ensures Collects(s, fetched, completed, progress, costs, periods, costs', periods')
            && (forall k: SourceId, m: Month :: Revision(periods'', k, m) == Revision(periods', k, m)) ==>
              Collects(s, fetched, completed, progress, costs, periods, costs', periods'')
  {
  }

  class Ledger {
    var costs: set<CostRow>
    var periods: map<(SourceId, Month), Period>

    /** Periods count the stored rows, and no account and day is stored twice. */
    ghost predicate Valid()
      reads this
    {
      && (forall s: SourceId, m: Month ::
            if (s, m) in periods then periods[(s, m)].rows == |MonthRows(costs, s, m)| else MonthRows(costs, s, m) == {})
      && (forall a, b :: a in costs && b in costs && a.account == b.account && a.day == b.day ==> a.source == b.source)
    }

    constructor ()
      ensures Valid() && costs == {} && periods == map[]
    {
      costs, periods := {}, map[];
    }

    method EnsurePeriod(s: SourceId, m: Month)
      requires Valid()
      modifies this`periods
      ensures Valid() && (s, m) in periods
      ensures forall k: SourceId, i: Month :: Revision(periods, k, i) == Revision(old(periods), k, i)
      ensures forall k :: k in old(periods) ==> k in periods && periods[k] == old(periods)[k]
    {
      if (s, m) !in periods {
        periods := periods[(s, m) := Period(0, 0)];
      }
    }

    /** Atomically replace one month of one source, or change no row and no revision at all. */
    method PublishMonth(conn: Connection, s: SourceId, m: Month, batch: seq<CostRow>, live: bool, sameSource: bool)
      returns (result: Publish)
      requires Valid() && forall r :: r in batch ==> InMonth(r, s, m)
      modifies this
      ensures Valid()
      ensures result.Stored? <==> Refusal(old(costs), conn, s, batch, live, sameSource).None?
      ensures !result.Stored? ==> Refusal(old(costs), conn, s, batch, live, sameSource) == Some(result)
      ensures
        var checked := live && sameSource;
        match result
        case ConnectionChanged => !checked
        case OutsideScope => checked && !WithinScope(conn, batch)
        case OverlappingScope => checked && WithinScope(conn, batch) && !Unshared(old(costs), s, batch)
        case DuplicateSlice => checked && WithinScope(conn, batch) && Unshared(old(costs), s, batch) && !DistinctSlices(batch)
        case Stored(_) => checked && WithinScope(conn, batch) && Unshared(old(costs), s, batch) && DistinctSlices(batch)
      ensures !result.Stored? ==> costs == old(costs) && forall k: SourceId, i: Month :: Revision(periods, k, i) == Revision(old(periods), k, i)
      ensures result.Stored? ==>
                && MonthRows(costs, s, m) == (set r | r in batch)
                && (s, m) in periods && result.rows == |batch| == periods[(s, m)].rows
                && Revision(periods, s, m) == Revision(old(periods), s, m) + 1
      ensures forall r :: !InMonth(r, s, m) ==> (r in costs <==> r in old(costs))
      ensures forall k: SourceId, i: Month :: (k, i) != (s, m) ==> Revision(periods, k, i) == Revision(old(periods), k, i)
    {
      EnsurePeriod(s, m);
      var refusal := Refusal(costs, conn, s, batch, live, sameSource);
      if refusal.Some? {
        return refusal.value;
      }
      ReplaceKeepsOneSource(costs, s, m, batch);
      ReplaceMonth(costs, s, m, batch);
      costs := Replace(costs, s, m, batch);
      periods := periods[(s, m) := Period(periods[(s, m)].revision + 1, |batch|)];
      return Stored(|batch|);
    }

    /** Collect the requested months up to today, oldest first. For each month the oracles give what was fetched,
        whether the checks of the publication passed and whether the heartbeat after it did.
        Months already completed are skipped; the first failure ends the run. */
    method CollectSource(conn: Connection, s: SourceId, months: seq<Month>, today: Date, completed: set<Month>,
                         fetched: Month -> Option<seq<CostRow>>, sameSource: Month -> bool, renewed: Month -> bool)
      returns (success: bool, progress: set<Month>)
      requires Valid()
      requires forall m :: fetched(m).Some? ==> forall r :: r in fetched(m).value ==> InMonth(r, s, m)
      modifies this
      ensures Valid()
      ensures success ==> forall m :: m in months && m <= today.month ==> m in progress
      ensures forall m :: m in progress && m !in completed ==> m in months && m <= today.month
      ensures Collects(s, fetched, completed, progress, old(costs), old(periods), costs, periods)
      // A failed run stopped at one month, which could not be fetched or stored, or whose heartbeat
      // failed: all earlier months are done, and no later one was touched.
      ensures !success ==>
                exists m :: m in months && m <= today.month && m !in completed
                            && (if m in progress then !renewed(m) else Unpublishable(costs, conn, s, fetched(m), sameSource(m)))
                            && (forall k :: k in months && k < m ==> k in progress)
                            && (forall k :: k in progress && k !in completed ==> k <= m)
    {
      hide Collects, Refusal, MonthRows, InMonth;
      progress := completed;
      CollectsNothing(s, fetched, completed, completed, costs, periods, costs, periods, periods);
      var todo := SortedUpTo(months, today.month);
      for i := 0 to |todo|
        invariant Valid() && Collects(s, fetched, completed, progress, old(costs), old(periods), costs, periods)
        invariant completed <= progress && forall k :: 0 <= k < i ==> todo[k] in progress
        invariant forall m :: m in progress && m !in completed ==> m in todo && m in todo[..i]
      {
        var m := todo[i];
        assert m in todo && todo[..i + 1] == todo[..i] + [m];
        if m in progress {
          continue;
        }
        ghost var read := periods;
        EnsurePeriod(s, m);
        CollectsNothing(s, fetched, completed, progress, old(costs), old(periods), costs, read, periods);
        var batch := fetched(m);
        Before(months, today.month, todo, i);
        if batch.None? {
          return false, progress;
        }
        ghost var costs', periods' := costs, periods;
        var result := PublishMonth(conn, s, m, batch.value, true, sameSource(m));
        if !result.Stored? {
          assert costs == costs';
          CollectsNothing(s, fetched, completed, progress, old(costs), old(periods), costs, periods', periods);
          return false, progress;
        }
        CollectsMore(s, fetched, completed, progress, m, old(costs), old(periods), costs', periods', costs, periods);
        progress := progress + {m};
        if !renewed(m) {
          return false, progress;
        }
      }
      success := true;
    }
  }

  /** Earlier months stand before a month in the sorted list. */
  lemma Before(months: seq<Month>, limit: Month, todo: seq<Month>, i: nat)
    requires i < |todo| && todo == SortedUpTo(months, limit)
    ensures forall k :: k in months && k < todo[i] ==> k in todo[..i]
    ensures forall k :: k in todo[..i] ==> k <= todo[i]
  {
    assert todo[i] in todo;
    forall k | k in months && k < todo[i]
      ensures k in todo[..i]
    {
      assert k in todo;
      var j :| 0 <= j < |todo| && todo[j] == k;
    }
  }

  lemma OtherMonthsKept(before: set<CostRow>, after: set<CostRow>, s: SourceId, m: Month)
    requires forall r :: !InMonth(r, s, m) ==> (r in after <==> r in before)
    ensures forall k: SourceId, i: Month :: (k, i) != (s, m) ==> MonthRows(after, k, i) == MonthRows(before, k, i)
  {
  }

  lemma ReplaceMonth(costs: set<CostRow>, s: SourceId, m: Month, batch: seq<CostRow>)
    requires DistinctSlices(batch) && forall r :: r in batch ==> InMonth(r, s, m)
    ensures MonthRows(Replace(costs, s, m, batch), s, m) == set r | r in batch
    ensures |MonthRows(Replace(costs, s, m, batch), s, m)| == |batch|
    ensures forall k: SourceId, i: Month :: (k, i) != (s, m) ==> MonthRows(Replace(costs, s, m, batch), k, i) == MonthRows(costs, k, i)
  {
    BatchSize(batch);
    assert MonthRows(Replace(costs, s, m, batch), s, m) == set r | r in batch;
  }

  lemma ReplaceKeepsOneSource(costs: set<CostRow>, s: SourceId, m: Month, batch: seq<CostRow>)
    requires forall a, b :: a in costs && b in costs && a.account == b.account && a.day == b.day ==> a.source == b.source
    requires !Overlaps(costs, s, batch) && forall r :: r in batch ==> r.source == s
    ensures
      var after := Replace(costs, s, m, batch);
      forall a, b :: a in after && b in after && a.account == b.account && a.day == b.day ==> a.source == b.source
  {
  }
}
