/** The scheduler: six-hour slots, idempotent keys, and manual requests that share pending work.

    Every method runs while its caller holds the row of the source. */
module Scheduler {
  import opened Options
  import opened JobTable
  import opened JobQueue

  const SLOT: nat := 6 * 3600 * 1_000_000

  function SlotFor(now: nat): (slot: nat)
    ensures slot <= now < slot + SLOT && slot % SLOT == 0
  {
    now / SLOT * SLOT
  }

  function NextSlot(now: nat): (next: nat)
    ensures now < next <= now + SLOT && next % SLOT == 0
  {
    SlotFor(now) + SLOT
  }

  // --- Keys ------------------------------------------------------------------------------------

  datatype Key =
    | SlotKey(kind: string, source: SourceId, version: nat, slot: nat)
    | ManualKey(kind: string, source: SourceId, version: nat)
    | BackfillKey(kind: string, source: SourceId, version: nat)

  function Decimal(n: nat): (s: string)
    ensures s != "" && forall c :: c in s ==> '0' <= c <= '9'
  {
    var digit := [('0' as int + n % 10) as char];
    if n < 10 then digit else Decimal(n / 10) + digit
  }

  function ValueOf(s: string): int {
    if s == "" then 0 else 10 * ValueOf(s[..|s| - 1]) + (s[|s| - 1] as int - '0' as int)
  }

  lemma {:induction false} DecimalValue(n: nat)
    ensures ValueOf(Decimal(n)) == n
  {
    if n >= 10 {
      DecimalValue(n / 10);
      assert Decimal(n)[..|Decimal(n)| - 1] == Decimal(n / 10);
    } else {
      assert Decimal(n)[..0] == "";
    }
  }

  function Join(fields: seq<string>): string
    requires fields != []
  {
    if |fields| == 1 then fields[0] else fields[0] + ":" + Join(fields[1..])
  }

  predicate Clean(fields: seq<string>) {
    fields != [] && forall f :: f in fields ==> ':' !in f
  }

  /** Characters before the first separator. */
  function FirstField(s: string): string {
    if s == "" || s[0] == ':' then "" else [s[0]] + FirstField(s[1..])
  }

  lemma {:induction false} FirstFieldIs(a: string, x: string)
    requires ':' !in a
    ensures FirstField(a + ":" + x) == a
  {
    var s := a + ":" + x;
    if a == "" {
      assert s[0] == ':';
    } else {
      assert s[0] == a[0] && s[1..] == a[1..] + ":" + x;
      FirstFieldIs(a[1..], x);
    }
  }

  lemma HeadsAgree(a: string, b: string, x: string, y: string)
    requires ':' !in a && ':' !in b && a + ":" + x == b + ":" + y
    ensures a == b && x == y
  {
    FirstFieldIs(a, x);
    FirstFieldIs(b, y);
    assert x == (a + ":" + x)[|a| + 1..] && y == (b + ":" + y)[|b| + 1..];
  }

  /** Joined fields can be told apart when no field contains the separator. */
  lemma {:induction false} JoinInjective(a: seq<string>, b: seq<string>)
    requires Clean(a) && Clean(b) && |a| == |b| && Join(a) == Join(b)
    ensures a == b
  {
    if |a| == 1 {
      assert a == [a[0]] && b == [b[0]];
    } else {
      HeadsAgree(a[0], b[0], Join(a[1..]), Join(b[1..]));
      assert a == [a[0]] + a[1..] && b == [b[0]] + b[1..];
      JoinInjective(a[1..], b[1..]);
    }
  }

  /** `kind:source:vN:stamp`, `kind:source:manual:vN` and `kind:source:backfill:vN`; the stamp of
      a slot is its number. */
  function Fields(key: Key): seq<string> {
    match key
    case SlotKey(kind, source, version, slot) => [kind, Decimal(source), "v" + Decimal(version), Decimal(slot / SLOT)]
    case ManualKey(kind, source, version) => [kind, Decimal(source), "manual", "v" + Decimal(version)]
    case BackfillKey(kind, source, version) => [kind, Decimal(source), "backfill", "v" + Decimal(version)]
  }

  function Render(key: Key): string {
    Join(Fields(key))
  }

  predicate Proper(key: Key) {
    ':' !in key.kind && (key.SlotKey? ==> key.slot % SLOT == 0)
  }

  lemma FieldsClean(key: Key)
    requires Proper(key)
    ensures Clean(Fields(key)) && |Fields(key)| == 4
  {
  }

  /** Keys never collide: the same text means the same kind, source, version and slot. */
  lemma KeysDistinct(a: Key, b: Key)
    requires Proper(a) && Proper(b) && Render(a) == Render(b)
    ensures a == b
  {
    FieldsClean(a);
    FieldsClean(b);
    JoinInjective(Fields(a), Fields(b));
    var f, g := Fields(a), Fields(b);
    assert f[0] == g[0] && f[1] == g[1] && f[2] == g[2] && f[3] == g[3];
    DecimalValue(a.source);
    DecimalValue(b.source);
    DecimalValue(a.version);
    DecimalValue(b.version);
    SecondCharacters(a, b);
    if a.SlotKey? {
      DecimalValue(a.slot / SLOT);
      DecimalValue(b.slot / SLOT);
      assert f[2][1..] == Decimal(a.version) && g[2][1..] == Decimal(b.version);
    } else {
      assert f[3][1..] == Decimal(a.version) && g[3][1..] == Decimal(b.version);
    }
  }

  /** The third field tells the three forms apart. */
  lemma SecondCharacters(a: Key, b: Key)
    requires Fields(a)[2] == Fields(b)[2]
    ensures a.SlotKey? == b.SlotKey? && a.ManualKey? == b.ManualKey?
  {
    assert Fields(a)[2][0] == Fields(b)[2][0];
  }

  // --- Sources and pending work -----------------------------------------------------------------------

  const COLLECT := "collect"
  const REFRESH := "explorer_refresh"
  const DISCOVER := "discover"
  const BUDGETS := "import_budgets"

  datatype Source = Source(id: SourceId, version: nat, collects: bool, imports: bool, initialDone: bool,
                           lastSuccess: Option<nat>, budgetsImported: Option<nat>, nextRun: Option<nat>, syncRequested: bool)

  predicate Initialized(src: Source) {
    src.initialDone || (!src.collects && (src.lastSuccess.Some? || src.budgetsImported.Some?))
  }

  function Latest(a: Option<nat>, b: Option<nat>): Option<nat> {
    if a.None? then b else if b.None? || b.value < a.value then a else b
  }

  function BudgetSuccess(src: Source): Option<nat> {
    if src.collects then src.budgetsImported else Latest(src.lastSuccess, src.budgetsImported)
  }

  predicate StaleAt(success: Option<nat>, slot: nat) {
    success.None? || success.value < slot
  }

  function Slot(src: Source, kind: string, now: nat): string {
    Render(SlotKey(kind, src.id, src.version, SlotFor(now)))
  }

  /** An active job of the source and kind, for its current version or for none. */
  predicate Pending(jobs: Jobs, src: Source, kind: string, id: JobId) {
    && id in jobs && jobs[id].Active() && jobs[id].source == Some(src.id) && jobs[id].kind == kind
    && (jobs[id].version.None? || jobs[id].version == Some(src.version))
  }

  ghost predicate HasPending(jobs: Jobs, src: Source, kind: string) {
    exists id :: Pending(jobs, src, kind, id)
  }

  ghost predicate HasKey(jobs: Jobs, key: string) {
    exists id :: id in jobs && jobs[id].key == key
  }

  /** A rendered key says what its job is. */
  ghost predicate KeysTell(jobs: Jobs) {
    forall id, key: Key :: id in jobs && Proper(key) && jobs[id].key == Render(key) ==>
      jobs[id].kind == key.kind && jobs[id].source == Some(key.source) && jobs[id].version == Some(key.version)
  }

  /** The kinds a tick enqueues. */
  predicate Automatic(kind: string) {
    kind == COLLECT || kind == REFRESH || kind == DISCOVER || kind == BUDGETS
  }

  lemma Kinds()
    ensures Automatic(COLLECT) && Automatic(REFRESH) && Automatic(DISCOVER) && Automatic(BUDGETS)
    ensures forall kind :: Automatic(kind) ==> ':' !in kind
    ensures COLLECT != REFRESH && COLLECT != DISCOVER && COLLECT != BUDGETS
  {
  }

  /** Every key a tick of this slot could use is taken. */
  ghost predicate AllKeys(jobs: Jobs, src: Source, now: nat) {
    forall kind :: Automatic(kind) ==> HasKey(jobs, Slot(src, kind, now))
  }

  lemma KeysTellMore(jobs: Jobs, id: JobId, job: Job, key: Key)
    requires KeysTell(jobs) && Proper(key) && job.key == Render(key)
    requires job.kind == key.kind && job.source == Some(key.source) && job.version == Some(key.version)
    ensures KeysTell(jobs[id := job])
  {
    hide Render, Proper;
    forall k: Key | Proper(k) && job.key == Render(k)
      ensures k == key
    {
      KeysDistinct(k, key);
    }
  }

  /** `_pending_job`: the oldest one. */
  method PendingJob(queue: Queue, src: Source, kind: string) returns (oldest: Option<JobId>)
    ensures oldest.None? <==> !HasPending(queue.jobs, src, kind)
    ensures oldest.Some? ==>
              Pending(queue.jobs, src, kind, oldest.value) && forall id :: Pending(queue.jobs, src, kind, id) ==> oldest.value <= id
  {
    var all := set id | id in queue.jobs && Pending(queue.jobs, src, kind, id);
    var rest := all;
    oldest := None;
    while rest != {}
      invariant rest <= all
      invariant oldest.None? ==> rest == all
      invariant oldest.Some? ==> oldest.value in all && forall id :: id in all && id !in rest ==> oldest.value <= id
    {
      var id :| id in rest;
      if oldest.None? || id < oldest.value {
        oldest := Some(id);
      }
      rest := rest - {id};
    }
    assert forall id :: Pending(queue.jobs, src, kind, id) <==> id in all;
  }

  /** The job that stands for the work of a kind: the oldest one pending before, else the one of the slot. */
  ghost predicate StandsFor(before: Jobs, jobs: Jobs, src: Source, kind: string, now: nat, id: JobId) {
    && id in jobs
    && if HasPending(before, src, kind) then
         Pending(before, src, kind, id) && forall other :: Pending(before, src, kind, other) ==> id <= other
       else jobs[id].key == Slot(src, kind, now)
  }

  // --- One tick for one source --------------------------------------------------------------------------

  predicate CostsDue(src: Source, now: nat) {
    src.collects && (!Initialized(src) || StaleAt(src.lastSuccess, SlotFor(now)))
  }

  predicate BudgetsDue(src: Source, now: nat) {
    src.imports && StaleAt(BudgetSuccess(src), SlotFor(now))
  }

  /** Costs are due for a source that collects them if it never succeeded, or not since the last six-hour
      boundary. */
  lemma CostsDueExactly(src: Source, now: nat, slot: nat)
    requires slot % (6 * 3600 * SECOND) == 0 && slot <= now < slot + 6 * 3600 * SECOND
    ensures CostsDue(src, now) <==>
            src.collects && (!src.initialDone || src.lastSuccess.None? || src.lastSuccess.value < slot)
  {
    SlotUnique(now, slot);
  }

  /** Budgets are due if none were imported since that boundary; of a source without costs any success
      counts. */
  lemma BudgetsDueExactly(src: Source, now: nat, slot: nat)
    requires slot % (6 * 3600 * SECOND) == 0 && slot <= now < slot + 6 * 3600 * SECOND
    ensures BudgetsDue(src, now) <==>
            && src.imports && (src.budgetsImported.Some? ==> src.budgetsImported.value < slot)
            && (!src.collects && src.lastSuccess.Some? ==> src.lastSuccess.value < slot)
  {
    SlotUnique(now, slot);
  }

  /** There is one boundary at or before a time within six hours. */
  lemma SlotUnique(now: nat, slot: nat)
    requires slot % (6 * 3600 * SECOND) == 0 && slot <= now < slot + 6 * 3600 * SECOND
    ensures SlotFor(now) == slot
  {
  }

  /** What a tick may enqueue, with its urgency and time: a collection unless one is pending, of all months
      for a source without a success; once there was one also a refresh of the cached reports five
      minutes later, and at midnight a discovery; a budget import unless one is pending, two minutes later. */
  ghost predicate Demanded(before: Jobs, src: Source, now: nat, months: nat, runAfter: Time, job: Job) {
    && job.status == Queued && job.attempts == 0
    && match job.kind
       case "collect" =>
         && CostsDue(src, now) && !HasPending(before, src, COLLECT) && job.monthsBack == months
         && job.priority == (if Initialized(src) then 5 else 3) && job.runAfter == runAfter
       case "explorer_refresh" => CostsDue(src, now) && Initialized(src) && job.priority == 7 && job.runAfter == runAfter + 300 * SECOND
       case "discover" =>
         && CostsDue(src, now) && Initialized(src) && SlotFor(now) % (24 * 3600 * SECOND) == 0
         && job.priority == 6 && job.runAfter == runAfter
       case "import_budgets" =>
         && BudgetsDue(src, now) && !HasPending(before, src, BUDGETS)
         && (if Initialized(src) then job.priority == 8 && job.runAfter == runAfter + 120 * SECOND
             else job.priority == 4 && job.runAfter == runAfter)
       case _ => false
  }

  /** Any job with these fields would be demanded. */
  ghost predicate Wants(before: Jobs, src: Source, now: nat, months: nat, runAfter: Time, kind: string, monthsBack: nat, priority: nat, at: Time) {
    forall job: Job ::
      (job.kind == kind && job.monthsBack == monthsBack && job.priority == priority && job.runAfter == at
       && job.status == Queued && job.attempts == 0) ==> Demanded(before, src, now, months, runAfter, job)
  }

  lemma WantsCollection(before: Jobs, src: Source, now: nat, months: nat, runAfter: Time)
    requires CostsDue(src, now) && !HasPending(before, src, COLLECT)
    ensures Wants(before, src, now, months, runAfter, COLLECT, months, if Initialized(src) then 5 else 3, runAfter)
  {
    hide CostsDue, HasPending, Initialized, BudgetsDue;
  }

  lemma WantsRefresh(before: Jobs, src: Source, now: nat, months: nat, runAfter: Time)
    requires CostsDue(src, now) && Initialized(src)
    ensures Wants(before, src, now, months, runAfter, REFRESH, 1, 7, runAfter + 300 * SECOND)
    ensures SlotFor(now) % (24 * 3600 * SECOND) == 0 ==> Wants(before, src, now, months, runAfter, DISCOVER, 1, 6, runAfter)
  {
    hide CostsDue, HasPending, Initialized, BudgetsDue;
  }

  lemma WantsBudgets(before: Jobs, src: Source, now: nat, months: nat, runAfter: Time)
    requires BudgetsDue(src, now) && !HasPending(before, src, BUDGETS)
    ensures Wants(before, src, now, months, runAfter, BUDGETS, 1, if Initialized(src) then 8 else 4,
                  if Initialized(src) then runAfter + 120 * SECOND else runAfter)
  {
    hide CostsDue, HasPending, Initialized, BudgetsDue;
  }

  lemma NotYetPending(start: Jobs, jobs: Jobs, src: Source, kind: string)
    requires (forall k :: k in start ==> k in jobs && jobs[k] == start[k]) && !HasPending(jobs, src, kind)
    ensures !HasPending(start, src, kind)
  {
    if HasPending(start, src, kind) {
      var id :| Pending(start, src, kind, id);
      assert Pending(jobs, src, kind, id);
    }
  }

  lemma DemandedMore(start: Jobs, middle: Jobs, after: Jobs, src: Source, now: nat, months: nat, runAfter: Time, id: JobId)
    requires AllDemanded(start, middle, src, now, months, runAfter) && id in after && after == middle[id := after[id]]
    requires Demanded(start, src, now, months, runAfter, after[id])
    ensures AllDemanded(start, after, src, now, months, runAfter)
  {
    hide Demanded;
  }

  ghost predicate AllDemanded(before: Jobs, after: Jobs, src: Source, now: nat, months: nat, runAfter: Time) {
    forall id :: id in after && id !in before ==> Demanded(before, src, now, months, runAfter, after[id])
  }

  /** Rows are only added, each under a slot key that no row had; a collection asks for `months`. */
  ghost predicate Ticked(before: Jobs, after: Jobs, src: Source, now: nat, months: nat) {
    && (forall id :: id in before ==> id in after && after[id] == before[id])
    && (forall id :: id in after && id !in before ==>
          && after[id].source == Some(src.id) && after[id].version == Some(src.version)
          && after[id].key == Slot(src, after[id].kind, now) && !HasKey(before, after[id].key)
          && ':' !in after[id].kind && (after[id].kind == COLLECT ==> after[id].monthsBack == months))
    && (forall a, b :: a in after && b in after && a !in before && b !in before && a != b ==> after[a].key != after[b].key)
  }

  /** One automatic job: once per key, whatever became of the job. */
  method EnqueueOnce(queue: Queue, src: Source, kind: string, now: nat, monthsBack: nat, priority: nat, runAfter: Time)
    returns (id: JobId, created: bool)
    requires queue.Valid() && KeysTell(queue.jobs) && ':' !in kind
    modifies queue
    ensures queue.Valid() && KeysTell(queue.jobs)
    ensures id in queue.jobs && queue.jobs[id].key == Slot(src, kind, now)
    ensures created <==> !HasKey(old(queue.jobs), Slot(src, kind, now))
    ensures !created ==> queue.jobs == old(queue.jobs)
    ensures created ==>
              && id !in old(queue.jobs) && queue.jobs == old(queue.jobs)[id := queue.jobs[id]]
              && queue.jobs[id].kind == kind && queue.jobs[id].source == Some(src.id) && queue.jobs[id].version == Some(src.version)
              && queue.jobs[id].monthsBack == monthsBack && queue.jobs[id].status == Queued && queue.jobs[id].runAfter == runAfter
              && queue.jobs[id].priority == priority && queue.jobs[id].attempts == 0
  {
    var key := SlotKey(kind, src.id, src.version, SlotFor(now));
    id, created := queue.Enqueue(kind, Render(key), Some(src.id), Some(src.version), monthsBack, priority, runAfter, 0, true);
    if created {
      KeysTellMore(old(queue.jobs), id, queue.jobs[id], key);
    }
  }

  lemma TickedMore(before: Jobs, middle: Jobs, after: Jobs, src: Source, now: nat, months: nat, id: JobId)
    requires Ticked(before, middle, src, now, months) && id !in middle && id in after && after == middle[id := after[id]]
    requires after[id].source == Some(src.id) && after[id].version == Some(src.version)
    requires after[id].key == Slot(src, after[id].kind, now) && !HasKey(middle, after[id].key)
    requires ':' !in after[id].kind && (after[id].kind == COLLECT ==> after[id].monthsBack == months)
    ensures Ticked(before, after, src, now, months)
  {
    hide Slot;
  }

  /** What each part of a tick promises. */
  twostate predicate TickPart(queue: Queue, start: Jobs, src: Source, now: nat, months: nat, runAfter: Time, made: nat)
    reads queue
  {
    && queue.Valid() && KeysTell(queue.jobs) && Ticked(start, queue.jobs, src, now, months)
    && AllDemanded(start, queue.jobs, src, now, months, runAfter)
    && |queue.jobs| == |old(queue.jobs)| + made
    && (forall k :: k in old(queue.jobs) ==> k in queue.jobs && queue.jobs[k] == old(queue.jobs)[k])
    && (AllKeys(old(queue.jobs), src, now) ==> queue.jobs == old(queue.jobs))
  }

  /** In later slots: the refresh of cached reports and the daily discovery. */
  method ScheduleFollowUps(queue: Queue, ghost start: Jobs, src: Source, now: nat, ghost months: nat, runAfter: Time) returns (created: nat)
    requires queue.Valid() && KeysTell(queue.jobs) && Ticked(start, queue.jobs, src, now, months)
    requires CostsDue(src, now) && Initialized(src) && AllDemanded(start, queue.jobs, src, now, months, runAfter)
    modifies queue
    ensures TickPart(queue, start, src, now, months, runAfter, created)
    ensures HasKey(queue.jobs, Slot(src, REFRESH, now))
    ensures SlotFor(now) % (24 * 3600 * SECOND) == 0 ==> HasKey(queue.jobs, Slot(src, DISCOVER, now))
  {
    hide Slot, Ticked, KeysTell, TableValid, Automatic, HasKey, AllKeys, REFRESH, DISCOVER, Demanded, AllDemanded, Wants, CostsDue, Initialized;
    Kinds();
    WantsRefresh(start, src, now, months, runAfter);
    var id: JobId;
    id, created := Add(queue, start, src, REFRESH, now, months, 1, 7, runAfter + 300 * SECOND, runAfter);
    if SlotFor(now) % (4 * SLOT) == 0 {
      ghost var refreshed := queue.jobs;
      var found: nat;
      id, found := Add(queue, start, src, DISCOVER, now, months, 1, 6, runAfter, runAfter);
      created := created + found;
      WorkStays(refreshed, queue.jobs, src, REFRESH, Slot(src, REFRESH, now));
    }
  }

  /** Cost collection and what follows it. */
  method ScheduleCosts(queue: Queue, ghost start: Jobs, src: Source, now: nat, months: nat, runAfter: Time)
    returns (primary: JobId, created: nat)
    requires queue.Valid() && KeysTell(queue.jobs) && Ticked(start, queue.jobs, src, now, months)
    requires CostsDue(src, now) && AllDemanded(start, queue.jobs, src, now, months, runAfter)
    modifies queue
    ensures TickPart(queue, start, src, now, months, runAfter, created)
    ensures StandsFor(old(queue.jobs), queue.jobs, src, COLLECT, now, primary)
    ensures Initialized(src) ==> HasKey(queue.jobs, Slot(src, REFRESH, now))
    ensures Initialized(src) && SlotFor(now) % (24 * 3600 * SECOND) == 0 ==> HasKey(queue.jobs, Slot(src, DISCOVER, now))
    ensures HasKey(queue.jobs, Slot(src, COLLECT, now)) || HasPending(queue.jobs, src, COLLECT)
  {
    hide Slot, Ticked, KeysTell, TableValid, Pending, Automatic, HasKey, AllKeys, COLLECT, REFRESH, DISCOVER, BUDGETS,
      Demanded, AllDemanded, Wants, CostsDue, Initialized;
    Kinds();
    var pending := PendingJob(queue, src, COLLECT);
    created := 0;
    if pending.None? {
      TickedStays(start, queue.jobs, src, now, months);
      NotYetPending(start, queue.jobs, src, COLLECT);
      WantsCollection(start, src, now, months, runAfter);
      primary, created := Add(queue, start, src, COLLECT, now, months, months, if Initialized(src) then 5 else 3, runAfter, runAfter);
    } else {
      primary := pending.value;
      PendingIn(queue.jobs, src, COLLECT, primary);
    }
    ghost var before := queue.jobs;
    if Initialized(src) {
      var made := ScheduleFollowUps(queue, start, src, now, months, runAfter);
      created := created + made;
    }
    WorkStays(before, queue.jobs, src, COLLECT, Slot(src, COLLECT, now));
  }

  lemma PendingIn(jobs: Jobs, src: Source, kind: string, id: JobId)
    requires Pending(jobs, src, kind, id)
    ensures id in jobs && HasPending(jobs, src, kind)
  {
  }

  lemma PendingStays(before: Jobs, after: Jobs, src: Source, kind: string, id: JobId)
    requires Pending(before, src, kind, id) && id in after && after[id] == before[id]
    ensures HasPending(after, src, kind)
  {
    assert Pending(after, src, kind, id);
  }

  method ScheduleBudgets(queue: Queue, ghost start: Jobs, src: Source, now: nat, ghost months: nat, runAfter: Time) returns (job: JobId, created: nat)
    requires queue.Valid() && KeysTell(queue.jobs) && Ticked(start, queue.jobs, src, now, months)
    requires BudgetsDue(src, now) && AllDemanded(start, queue.jobs, src, now, months, runAfter)
    modifies queue
    ensures TickPart(queue, start, src, now, months, runAfter, created)
    ensures StandsFor(old(queue.jobs), queue.jobs, src, BUDGETS, now, job)
    ensures HasKey(queue.jobs, Slot(src, BUDGETS, now)) || HasPending(queue.jobs, src, BUDGETS)
  {
    hide Slot, Ticked, KeysTell, TableValid, Pending, Automatic, HasKey, AllKeys, COLLECT, REFRESH, DISCOVER, BUDGETS,
      Demanded, AllDemanded, Wants, BudgetsDue, Initialized;
    Kinds();
    var pending := PendingJob(queue, src, BUDGETS);
    created := 0;
    if pending.None? {
      TickedStays(start, queue.jobs, src, now, months);
      NotYetPending(start, queue.jobs, src, BUDGETS);
      WantsBudgets(start, src, now, months, runAfter);
      job, created := Add(queue, start, src, BUDGETS, now, months, 1, if Initialized(src) then 8 else 4,
                          if Initialized(src) then runAfter + 120 * SECOND else runAfter, runAfter);
    } else {
      job := pending.value;
      PendingIn(queue.jobs, src, BUDGETS, job);
    }
  }

  /** Both parts of a tick, as far as they are due. */
  method ScheduleDue(queue: Queue, src: Source, now: nat, months: nat, runAfter: Time) returns (primary: Option<JobId>, created: nat)
    requires queue.Valid() && KeysTell(queue.jobs)
    modifies queue
    ensures queue.Valid() && KeysTell(queue.jobs)
    ensures Ticked(old(queue.jobs), queue.jobs, src, now, months) && AllDemanded(old(queue.jobs), queue.jobs, src, now, months, runAfter)
    ensures |queue.jobs| == |old(queue.jobs)| + created
    ensures CostsDue(src, now) ==> primary.Some? && StandsFor(old(queue.jobs), queue.jobs, src, COLLECT, now, primary.value)
    ensures !CostsDue(src, now) && BudgetsDue(src, now) ==>
              primary.Some? && StandsFor(old(queue.jobs), queue.jobs, src, BUDGETS, now, primary.value)
    ensures CostsDue(src, now) ==> HasKey(queue.jobs, Slot(src, COLLECT, now)) || HasPending(queue.jobs, src, COLLECT)
    ensures CostsDue(src, now) && Initialized(src) ==> HasKey(queue.jobs, Slot(src, REFRESH, now))
    ensures CostsDue(src, now) && Initialized(src) && SlotFor(now) % (24 * 3600 * SECOND) == 0 ==> HasKey(queue.jobs, Slot(src, DISCOVER, now))
    ensures BudgetsDue(src, now) ==> HasKey(queue.jobs, Slot(src, BUDGETS, now)) || HasPending(queue.jobs, src, BUDGETS)
    ensures AllKeys(old(queue.jobs), src, now) ==> queue.jobs == old(queue.jobs)
    ensures primary.None? <==> !CostsDue(src, now) && !BudgetsDue(src, now)
  {
    hide Slot, Ticked, KeysTell, TableValid, Pending, Initialized, HasKey, AllKeys, COLLECT, BUDGETS, REFRESH, DISCOVER, Demanded, AllDemanded,
      CostsDue, BudgetsDue;
    NothingTicked(queue.jobs, src, now, months, runAfter);
    ghost var start := queue.jobs;
    created, primary := 0, None;
    if CostsDue(src, now) {
      var id, made := ScheduleCosts(queue, start, src, now, months, runAfter);
      primary, created := Some(id), made;
    }
    ghost var middle := queue.jobs;
    if BudgetsDue(src, now) {
      var id, made := ScheduleBudgets(queue, start, src, now, months, runAfter);
      primary, created := if primary.Some? then primary else Some(id), created + made;
    }
    WorkStays(middle, queue.jobs, src, COLLECT, Slot(src, COLLECT, now));
    WorkStays(middle, queue.jobs, src, REFRESH, Slot(src, REFRESH, now));
    WorkStays(middle, queue.jobs, src, DISCOVER, Slot(src, DISCOVER, now));
  }

  /** `_schedule_source`: enqueue what is due in this slot, and set the next run after now. */
  method ScheduleSource(queue: Queue, src: Source, now: nat, jitter: nat, history: nat, recent: nat)
    returns (updated: Source, primary: Option<JobId>, created: nat)
    requires queue.Valid() && KeysTell(queue.jobs)
    modifies queue
    ensures queue.Valid() && KeysTell(queue.jobs)
    ensures Ticked(old(queue.jobs), queue.jobs, src, now, if Initialized(src) then recent else history)
    // Nothing is enqueued that is not demanded; a first pull starts at once, later ones within the jitter.
    ensures AllDemanded(old(queue.jobs), queue.jobs, src, now, if Initialized(src) then recent else history,
                        if Initialized(src) then SlotFor(now) + jitter else now)
    ensures created == |queue.jobs| - |old(queue.jobs)|
    // The job returned is that of the costs if they are due, else that of the budgets.
    ensures primary.None? <==> !CostsDue(src, now) && !BudgetsDue(src, now)
    ensures primary.Some? ==>
              StandsFor(old(queue.jobs), queue.jobs, src, if CostsDue(src, now) then COLLECT else BUDGETS, now, primary.value)
    // The next run is when that job starts if it waits for later, else the next slot.
    ensures updated == src.(nextRun := updated.nextRun, syncRequested := false)
    ensures updated.nextRun.Some? && updated.nextRun.value > now
    ensures var waits := primary.Some? && queue.jobs[primary.value].status == Queued && queue.jobs[primary.value].runAfter > now;
            if waits then updated.nextRun.value == queue.jobs[primary.value].runAfter
            else updated.nextRun.value % SLOT == 0 && updated.nextRun.value <= now + SLOT
    // Nothing due is forgotten: each kind that is due has its key, or work already pending.
    ensures CostsDue(src, now) ==> HasKey(queue.jobs, Slot(src, COLLECT, now)) || HasPending(queue.jobs, src, COLLECT)
    ensures CostsDue(src, now) && Initialized(src) ==> HasKey(queue.jobs, Slot(src, REFRESH, now))
    ensures CostsDue(src, now) && Initialized(src) && SlotFor(now) % (24 * 3600 * SECOND) == 0 ==> HasKey(queue.jobs, Slot(src, DISCOVER, now))
    ensures BudgetsDue(src, now) ==> HasKey(queue.jobs, Slot(src, BUDGETS, now)) || HasPending(queue.jobs, src, BUDGETS)
    // A tick that finds all its keys creates nothing.
    ensures AllKeys(old(queue.jobs), src, now) ==> created == 0 && queue.jobs == old(queue.jobs)
  {
    hide Slot, Ticked, KeysTell, TableValid, Pending, Initialized, HasKey, AllKeys, COLLECT, BUDGETS, REFRESH, DISCOVER, Demanded, AllDemanded,
      CostsDue, BudgetsDue;
    var initial, slot := !Initialized(src), SlotFor(now);
    primary, created := ScheduleDue(queue, src, now, if initial then history else recent, if initial then now else slot + jitter);
    var next: nat := NextSlot(now);
    if primary.Some? && queue.jobs[primary.value].status == Queued && queue.jobs[primary.value].runAfter > now {
      next := queue.jobs[primary.value].runAfter;
    }
    updated := src.(nextRun := Some(next), syncRequested := false);
  }

  lemma WorkStays(before: Jobs, after: Jobs, src: Source, kind: string, key: string)
    requires forall k :: k in before ==> k in after && after[k] == before[k]
    ensures HasKey(before, key) ==> HasKey(after, key)
    ensures HasPending(before, src, kind) ==> HasPending(after, src, kind)
  {
    if HasPending(before, src, kind) {
      var id :| Pending(before, src, kind, id);
      assert Pending(after, src, kind, id);
    }
  }

  lemma NothingTicked(jobs: Jobs, src: Source, now: nat, months: nat, runAfter: Time)
    ensures Ticked(jobs, jobs, src, now, months) && AllDemanded(jobs, jobs, src, now, months, runAfter)
  {
  }

  /** One more job of the same tick. */
  method Add(queue: Queue, ghost start: Jobs, src: Source, kind: string, now: nat, ghost months: nat, monthsBack: nat, priority: nat, runAfter: Time,
             ghost base: Time)
    returns (id: JobId, made: nat)
    requires queue.Valid() && KeysTell(queue.jobs) && Automatic(kind)
    requires Ticked(start, queue.jobs, src, now, months) && (kind == COLLECT ==> monthsBack == months)
    requires AllDemanded(start, queue.jobs, src, now, months, base)
    requires Wants(start, src, now, months, base, kind, monthsBack, priority, runAfter)
    modifies queue
    ensures queue.Valid() && KeysTell(queue.jobs) && Ticked(start, queue.jobs, src, now, months)
    ensures AllDemanded(start, queue.jobs, src, now, months, base)
    ensures id in queue.jobs && HasKey(queue.jobs, Slot(src, kind, now)) && queue.jobs[id].key == Slot(src, kind, now)
    ensures |queue.jobs| == |old(queue.jobs)| + made
    ensures forall k :: k in old(queue.jobs) ==> k in queue.jobs && queue.jobs[k] == old(queue.jobs)[k]
    ensures HasKey(old(queue.jobs), Slot(src, COLLECT, now)) ==> HasKey(queue.jobs, Slot(src, COLLECT, now))
    ensures AllKeys(old(queue.jobs), src, now) ==> made == 0 && queue.jobs == old(queue.jobs)
  {
    hide Slot, Ticked, KeysTell, TableValid, Automatic, Demanded, AllDemanded;
    Kinds();
    ghost var middle := queue.jobs;
    var created: bool;
    id, created := EnqueueOnce(queue, src, kind, now, monthsBack, priority, runAfter);
    made := 0;
    if created {
      made := 1;
      TickedMore(start, middle, queue.jobs, src, now, months, id);
      DemandedMore(start, middle, queue.jobs, src, now, months, base, id);
      assert queue.jobs.Keys == middle.Keys + {id};
    }
  }

  lemma TickedStays(before: Jobs, after: Jobs, src: Source, now: nat, months: nat)
    requires Ticked(before, after, src, now, months)
    ensures forall k :: k in before ==> k in after && after[k] == before[k]
  {
    hide Slot;
  }

  /** At most one row per slot key: whatever the number of ticks, and whatever became of the row. */
  ghost predicate SingleSlots(jobs: Jobs) {
    forall a, b, key: Key :: a in jobs && b in jobs && key.SlotKey? && Proper(key) && jobs[a].key == Render(key) && jobs[b].key == Render(key)
      ==> a == b
  }

  lemma TicksKeepSingleSlots(before: Jobs, after: Jobs, src: Source, now: nat, months: nat)
    requires SingleSlots(before) && Ticked(before, after, src, now, months)
    ensures SingleSlots(after)
  {
    hide Render, Proper, Slot;
    forall a, b, key: Key | a in after && b in after && key.SlotKey? && Proper(key) && after[a].key == Render(key) && after[b].key == Render(key)
      ensures a == b
    {
      assert a in before && b !in before ==> HasKey(before, after[b].key);
      assert b in before && a !in before ==> HasKey(before, after[a].key);
    }
  }

  // --- Manual requests --------------------------------------------------------------------------------------

  /** Every active collection covers at least one month, and every active backfill the history. */
  ghost predicate Wide(jobs: Jobs, history: nat) {
    && (forall id :: id in jobs && jobs[id].Active() && jobs[id].kind == COLLECT ==> jobs[id].monthsBack >= 1)
    && (forall id, key: Key :: id in jobs && jobs[id].Active() && key.BackfillKey? && key.kind == COLLECT && Proper(key) && jobs[id].key == Render(key)
          ==> jobs[id].monthsBack >= history)
  }

  predicate Running(jobs: Jobs, id: JobId, wanted: nat)
    requires id in jobs
  {
    jobs[id].status == Leased && jobs[id].monthsBack < wanted
  }

  /** The active backfill job of the source, if any. */
  ghost predicate Backfill(jobs: Jobs, src: Source, id: JobId) {
    id in jobs && jobs[id].Active() && jobs[id].key == Render(BackfillKey(COLLECT, src.id, src.version))
  }

  /** The oldest pending job runs and asks for less. */
  ghost predicate OldestRunning(jobs: Jobs, src: Source, wanted: nat) {
    exists k :: Pending(jobs, src, COLLECT, k) && Running(jobs, k, wanted) && forall j :: Pending(jobs, src, COLLECT, j) ==> k <= j
  }

  /** What a request for costs does: the job it returns is pending work and covers the request
      exactly unless it is a backfill that was already there and asked for less; no other job
      changes, and a backfill is only added beside a running shorter pull. */
  ghost predicate Requested(before: Jobs, after: Jobs, src: Source, wanted: nat, id: JobId) {
    && Pending(after, src, COLLECT, id)
    && (after[id].monthsBack < wanted <==>
          OldestRunning(before, src, wanted) && exists b :: Backfill(before, src, b) && before[b].monthsBack < wanted)
    && (after[id].monthsBack < wanted ==> Backfill(before, src, id) && before[id].monthsBack == after[id].monthsBack)
    && (forall k :: k in before && k != id ==> k in after && after[k] == before[k])
    && (forall k :: k in after && k != id ==> k in before)
    && (id in before ==>
          && Pending(before, src, COLLECT, id) && after[id].key == before[id].key && after[id].monthsBack >= before[id].monthsBack)
    && (id !in before ==>
          && after[id].monthsBack == wanted && after[id].version == Some(src.version)
          && (after[id].key == Render(BackfillKey(COLLECT, src.id, src.version)) ==>
                exists k :: k in before && Pending(before, src, COLLECT, k) && Running(before, k, wanted)))
  }

  /** The cost part of `_request_pull`: a pending job that is wide enough is shared, a queued one
      is widened, and beside a running one a backfill is queued. */
  method RequestCollect(queue: Queue, src: Source, initial: bool, months: nat, now: nat) returns (id: JobId, created: bool)
    requires queue.Valid() && KeysTell(queue.jobs)
    modifies queue
    ensures queue.Valid() && KeysTell(queue.jobs)
    ensures Requested(old(queue.jobs), queue.jobs, src, months, id)
    ensures !created ==> id in old(queue.jobs)
    // A new job runs at once, before other work; a first pull shares the key of the automatic one.
    ensures created ==>
              && id !in old(queue.jobs) && queue.jobs[id].status == Queued && queue.jobs[id].priority == 3 && queue.jobs[id].runAfter == now
              && queue.jobs[id].key == Render(if HasPending(old(queue.jobs), src, COLLECT) then BackfillKey(COLLECT, src.id, src.version)
                                              else if initial then SlotKey(COLLECT, src.id, src.version, SlotFor(now))
                                              else ManualKey(COLLECT, src.id, src.version))
  {
    hide TableValid, KeysTell, Render;
    Kinds();
    var pending := PendingJob(queue, src, COLLECT);
    var key := if initial then SlotKey(COLLECT, src.id, src.version, SlotFor(now)) else ManualKey(COLLECT, src.id, src.version);
    if pending.Some? {
      id := pending.value;
      if months <= queue.jobs[id].monthsBack {
        return id, false;
      }
      if queue.jobs[id].status == Queued {
        WidenTells(queue.jobs, src, id, months);
        queue.Widen(id, months, src.version);
        return id, false;
      }
      key := BackfillKey(COLLECT, src.id, src.version);
      assert OldestRunning(queue.jobs, src, months);
    }
    ghost var before := queue.jobs;
    id, created := queue.Enqueue(COLLECT, Render(key), Some(src.id), Some(src.version), months, 3, now, 0, false);
    if created {
      KeysTellMore(before, id, queue.jobs[id], key);
      if pending.None? {
        NotBackfill(key, src);
      }
    } else {
      SharedKey(before, src, key, id);
      OneActive(before, queue.nextJob, id);
      KeysTellSame(before, queue.jobs, id);
    }
  }

  /** A job under one of the source's keys is pending work of the source. */
  lemma SharedKey(jobs: Jobs, src: Source, key: Key, id: JobId)
    requires KeysTell(jobs) && Proper(key) && id in jobs && jobs[id].Active() && jobs[id].key == Render(key)
    requires key.kind == COLLECT && key.source == src.id && key.version == src.version
    ensures Pending(jobs, src, COLLECT, id)
  {
  }

  /** No other active job has the key of an active job. */
  lemma OneActive(jobs: Jobs, nextJob: JobId, id: JobId)
    requires TableValid(jobs, nextJob) && id in jobs && jobs[id].Active()
    ensures forall k :: k in jobs && jobs[k].Active() && jobs[k].key == jobs[id].key ==> k == id
  {
  }

  lemma KeysTellSame(before: Jobs, after: Jobs, id: JobId)
    requires KeysTell(before) && id in before && id in after && after == before[id := after[id]]
    requires after[id].key == before[id].key && after[id].kind == before[id].kind && after[id].source == before[id].source
    requires after[id].version == before[id].version
    ensures KeysTell(after)
  {
    hide Render;
  }

  lemma WidenTells(jobs: Jobs, src: Source, id: JobId, months: nat)
    requires KeysTell(jobs) && Pending(jobs, src, COLLECT, id)
    ensures KeysTell(jobs[id := jobs[id].(monthsBack := months, version := Some(src.version))])
  {
    hide Render;
  }

  lemma NotBackfill(key: Key, src: Source)
    requires Proper(key) && !key.BackfillKey?
    ensures Render(key) != Render(BackfillKey(COLLECT, src.id, src.version))
  {
    if Render(key) == Render(BackfillKey(COLLECT, src.id, src.version)) {
      Kinds();
      KeysDistinct(key, BackfillKey(COLLECT, src.id, src.version));
    }
  }

  function Wanted(src: Source, initial: bool, months: nat, history: nat): nat {
    if initial || !Initialized(src) then history else months
  }

  /** A request for one month or the whole history finds and leaves every backfill as wide as the
      history, and is always covered. */
  lemma StaysWide(before: Jobs, after: Jobs, src: Source, id: JobId, wanted: nat, history: nat)
    requires Wide(before, history) && KeysTell(after) && history >= 1 && (wanted == 1 || wanted == history)
    requires Requested(before, after, src, wanted, id)
    ensures Wide(after, history) && after[id].monthsBack >= wanted
  {
    Kinds();
    if Backfill(before, src, id) {
      assert Proper(BackfillKey(COLLECT, src.id, src.version));
    }
    hide Render;
    forall key: Key | key.BackfillKey? && key.kind == COLLECT && Proper(key) && after[id].key == Render(key)
      ensures after[id].monthsBack >= history
    {
      if id !in before {
        assert key == BackfillKey(COLLECT, src.id, src.version);
      }
    }
  }

  /** A manual pull of costs: the job it returns is active and for the current connection. It
      covers what was asked exactly unless the oldest pending job runs a shorter pull and a
      backfill shorter than asked is already active; where pulls ask for one month or the whole
      history only, that never happens. A source that is not ready is refused and nothing changes. */
  method RequestPull(queue: Queue, src: Source, ready: bool, initial: bool, months: nat, history: nat, now: nat)
    returns (primary: Option<JobId>)
    requires queue.Valid() && KeysTell(queue.jobs) && src.collects && history >= 1
    modifies queue
    ensures queue.Valid() && KeysTell(queue.jobs)
    ensures primary.Some? <==> ready
    ensures !ready ==> queue.jobs == old(queue.jobs)
    ensures ready ==> Requested(old(queue.jobs), queue.jobs, src, Wanted(src, initial, months, history), primary.value)
    ensures ready ==>
              var wanted := if initial || !src.initialDone then history else months;
              && Pending(queue.jobs, src, COLLECT, primary.value)
              && (queue.jobs[primary.value].monthsBack >= wanted <==>
                    !OldestRunning(old(queue.jobs), src, wanted)
                    || forall b :: Backfill(old(queue.jobs), src, b) ==> old(queue.jobs)[b].monthsBack >= wanted)
    ensures ready && Wide(old(queue.jobs), history) && (months == 1 || months == history) ==>
              Wide(queue.jobs, history) && queue.jobs[primary.value].monthsBack >= Wanted(src, initial, months, history)
    ensures ready && primary.value !in old(queue.jobs) ==>
              queue.jobs[primary.value].monthsBack == if initial || !src.initialDone then history else months
  {
    assert Wanted(src, initial, months, history) == if initial || !src.initialDone then history else months;
    hide TableValid, KeysTell, Render, Initialized;
    if !ready {
      return None;
    }
    ghost var before := queue.jobs;
    var first := initial || !Initialized(src);
    var id, _ := RequestCollect(queue, src, first, Wanted(src, initial, months, history), now);
    if Wide(before, history) && (months == 1 || months == history) {
      StaysWide(before, queue.jobs, src, id, Wanted(src, initial, months, history), history);
    }
    primary := Some(id);
  }

  // --- The job table over time ----------------------------------------------------------------------------

  /** Ticks, requests for costs, and everything else that happens to the table. */
  datatype TableStep =
    | Tick(src: Source, now: nat, months: nat)
    | Request(src: Source, wanted: nat, id: JobId)
    | Other

  /** Other statements rewrite rows without their payload, delete rows, and insert jobs of other kinds. */
  ghost predicate OtherStatements(before: Jobs, after: Jobs) {
    && (forall id :: id in after && id in before ==>
          && after[id].kind == before[id].kind && after[id].key == before[id].key && after[id].monthsBack == before[id].monthsBack
          && (after[id].Active() ==> before[id].Active()))
    && (forall id :: id in after && id !in before ==> after[id].kind != COLLECT)
  }

  /** Keys of the scheduler's forms always belong to the jobs they describe. */
  ghost predicate TableNext(before: Jobs, step: TableStep, after: Jobs) {
    && KeysTell(after)
    && match step
       case Tick(src, now, months) => months >= 1 && Ticked(before, after, src, now, months)
       case Request(src, wanted, id) => wanted >= 1 && Requested(before, after, src, wanted, id)
       case Other => OtherStatements(before, after)
  }

  ghost predicate TableRun(tables: seq<Jobs>, steps: seq<TableStep>) {
    && |tables| == |steps| + 1 && tables[0] == map[]
    && forall i :: 0 <= i < |steps| ==> TableNext(tables[i], steps[i], tables[i + 1])
  }

  /** The statements of the queue are among the others: renew and complete, fail and recover, lease. */
  lemma RenewalsAreOthers(jobs: Jobs, held: Held, now: Time, progress: set<Month>, saved: Option<set<Month>>)
    ensures OtherStatements(jobs, JobTable.Heartbeat(jobs, held, now, saved))
    ensures OtherStatements(jobs, JobTable.Complete(jobs, held, progress))
  {
  }

  lemma FailuresAreOthers(jobs: Jobs, held: Held, now: Time, progress: set<Month>, permanent: bool, delay: int, id: JobId, seen: Job)
    ensures OtherStatements(jobs, JobTable.Fail(jobs, held, now, permanent, delay, progress))
    ensures OtherStatements(jobs, JobTable.Recover(jobs, id, seen, now, delay))
  {
  }

  lemma LeasesAreOthers(jobs: Jobs, id: JobId, worker: string, now: Time)
    requires id in jobs && jobs[id].status == Queued
    ensures OtherStatements(jobs, jobs[id := Claimed(jobs[id], worker, now)])
  {
  }

  lemma OthersKeepWide(before: Jobs, after: Jobs, history: nat)
    requires Wide(before, history) && KeysTell(after) && OtherStatements(before, after)
    ensures Wide(after, history)
  {
    hide Render;
  }

  /** A tick makes no backfill. */
  lemma TicksKeepWide(before: Jobs, after: Jobs, src: Source, now: nat, months: nat, history: nat)
    requires Wide(before, history) && Ticked(before, after, src, now, months) && months >= 1
    ensures Wide(after, history)
  {
    forall id, key: Key | id in after && id !in before && key.BackfillKey? && Proper(key)
      ensures after[id].key != Render(key)
    {
      var slot := SlotKey(after[id].kind, src.id, src.version, SlotFor(now));
      hide Render, Proper, SlotFor;
      assert after[id].key == Render(slot);
      SlotIsProper(slot.kind, src, now);
      if Render(slot) == Render(key) {
        KeysDistinct(slot, key);
      }
    }
    hide Render, Proper, Slot;
  }

  lemma SlotIsProper(kind: string, src: Source, now: nat)
    requires ':' !in kind
    ensures Proper(SlotKey(kind, src.id, src.version, SlotFor(now)))
  {
  }

  /** As long as every pull asks for one month or the whole history, no backfill is ever shorter
      than the history, whatever ticks, leases, failures and recoveries happen in between. */
  lemma {:induction false} WideInRuns(tables: seq<Jobs>, steps: seq<TableStep>, history: nat, i: nat)
    requires TableRun(tables, steps) && history >= 1 && i < |tables|
    requires forall k :: 0 <= k < i && steps[k].Request? ==> steps[k].wanted == 1 || steps[k].wanted == history
    ensures Wide(tables[i], history)
  {
    hide Wide, KeysTell, Ticked, Requested, OtherStatements;
    if i == 0 {
      NothingWide(history);
    } else {
      WideInRuns(tables, steps, history, i - 1);
      assert TableNext(tables[i - 1], steps[i - 1], tables[i]);
      match steps[i - 1]
      case Tick(src, now, months) => TicksKeepWide(tables[i - 1], tables[i], src, now, months, history);
      case Request(src, wanted, id) => StaysWide(tables[i - 1], tables[i], src, id, wanted, history);
      case Other => OthersKeepWide(tables[i - 1], tables[i], history);
    }
  }

  lemma NothingWide(history: nat)
    ensures Wide(map[], history)
  {
  }

  /** So in such a run every pull returns an active job of the source that covers it. */
  lemma PullsAreCovered(tables: seq<Jobs>, steps: seq<TableStep>, history: nat, i: nat)
    requires TableRun(tables, steps) && history >= 1 && i < |steps| && steps[i].Request?
    requires forall k :: 0 <= k <= i && steps[k].Request? ==> steps[k].wanted == 1 || steps[k].wanted == history
    ensures Pending(tables[i + 1], steps[i].src, COLLECT, steps[i].id) && tables[i + 1][steps[i].id].monthsBack >= steps[i].wanted
  {
    hide Wide, KeysTell, Ticked, OtherStatements, Render;
    WideInRuns(tables, steps, history, i);
    assert TableNext(tables[i], steps[i], tables[i + 1]);
    StaysWide(tables[i], tables[i + 1], steps[i].src, steps[i].id, steps[i].wanted, history);
  }

  // --- A pull that is not covered -----------------------------------------------------------------------------

  const FIRST := Source(0, 0, true, false, true, None, None, None, false)

  function Collection(key: Key, months: nat): Job {
    Job(COLLECT, Render(key), Some(0), Some(0), months, {}, Queued, 5, 0, None, "", 0, 6)
  }

  const HOURLY := SlotKey(COLLECT, 0, 0, 0)
  const BACKFILL := BackfillKey(COLLECT, 0, 0)

  function Leasing(): Job {
    Claimed(Collection(HOURLY, 1), "worker", 0)
  }

  lemma FirstKeys()
    ensures Proper(HOURLY) && Proper(BACKFILL) && Render(HOURLY) != Render(BACKFILL)
    ensures KeysTell(map[]) && KeysTell(map[0 := Collection(HOURLY, 1)]) && KeysTell(map[0 := Leasing()])
    ensures KeysTell(map[0 := Leasing(), 1 := Collection(BACKFILL, 6)])
  {
    Kinds();
    NotBackfill(HOURLY, FIRST);
    var none: Jobs := map[];
    KeysTellMore(none, 0, Collection(HOURLY, 1), HOURLY);
    KeysTellMore(none, 0, Leasing(), HOURLY);
    KeysTellMore(none[0 := Leasing()], 1, Collection(BACKFILL, 6), BACKFILL);
    hide Render, Proper;
    assert none[0 := Leasing()][1 := Collection(BACKFILL, 6)] == map[0 := Leasing(), 1 := Collection(BACKFILL, 6)];
  }

  lemma TickAndLease()
    ensures Ticked(map[], map[0 := Collection(HOURLY, 1)], FIRST, 0, 1)
    ensures OtherStatements(map[0 := Collection(HOURLY, 1)], map[0 := Leasing()])
  {
    Kinds();
    hide Render;
    assert SlotFor(0) == 0;
  }

  lemma SixMonths()
    requires Render(HOURLY) != Render(BACKFILL)
    ensures Requested(map[0 := Leasing()], map[0 := Leasing(), 1 := Collection(BACKFILL, 6)], FIRST, 6, 1)
  {
    hide Render;
    assert Pending(map[0 := Leasing()], FIRST, COLLECT, 0) && Running(map[0 := Leasing()], 0, 6);
  }

  lemma WholeHistory()
    requires Render(HOURLY) != Render(BACKFILL)
    ensures
      var jobs := map[0 := Leasing(), 1 := Collection(BACKFILL, 6)];
      Requested(jobs, jobs, FIRST, 13, 1)
  {
    hide Render;
    var jobs := map[0 := Leasing(), 1 := Collection(BACKFILL, 6)];
    assert Pending(jobs, FIRST, COLLECT, 0) && Running(jobs, 0, 13);
    assert Backfill(jobs, FIRST, 1) && jobs[1].monthsBack < 13;
  }

  /** While a one-month collection runs, a pull of six months, as the command line asks for it,
      queues a backfill; a pull of a thirteen-month history then returns that backfill. */
  lemma ShortBackfill() returns (tables: seq<Jobs>, steps: seq<TableStep>)
    ensures TableRun(tables, steps) && |steps| == 4
    ensures steps[2] == Request(FIRST, 6, 1) && steps[3] == Request(FIRST, 13, 1)
    ensures 1 in tables[4] && tables[4][1].Active() && tables[4][1].monthsBack == 6
  {
    FirstKeys();
    TickAndLease();
    SixMonths();
    WholeHistory();
    hide KeysTell, Ticked, Requested, OtherStatements, Render;
    var both := map[0 := Leasing(), 1 := Collection(BACKFILL, 6)];
    tables := [map[], map[0 := Collection(HOURLY, 1)], map[0 := Leasing()], both, both];
    steps := [Tick(FIRST, 0, 1), Other, Request(FIRST, 6, 1), Request(FIRST, 13, 1)];
  }
}
