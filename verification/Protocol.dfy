/** Interleaved collection: worker threads, the scheduler, lease recovery and operators
    act on the shared tables in any order.

    A transaction that takes row locks is split at every lock and read it performs; its
    writes become visible in one commit step. A single-statement update is one step and
    needs its row unlocked. A crashed worker or connection is an abort: its locks go, and
    nothing it had not committed remains. */
module Protocol {
  import opened Options
  import opened JobTable
  import opened Calendar

  type AccountId = string

  datatype Kind = Payer | Standalone | MemberBudgets

  /** The connection fields a publication compares with the ones its worker loaded. */
  datatype Connection = Connection(
    version: nat,
    customer: nat,
    account: AccountId,
    roleArn: string,
    externalId: string,
    kind: Kind,
    shared: bool,
    capabilities: set<string>)

  datatype Source = Source(enabled: bool, customerActive: bool, conn: Connection, imported: bool)

  datatype CostRow = CostRow(
    source: SourceId,
    day: Date,
    account: AccountId,
    service: string,
    currency: string,
    unblended: int,
    amortized: int,
    estimated: bool)
  {
    predicate SameSlice(other: CostRow) {
      source == other.source && day == other.day && account == other.account
      && service == other.service && currency == other.currency
    }
  }

  datatype Period = Period(revision: nat, rows: nat)

  // --- Transactions in progress ------------------------------------------------------

  datatype Owner = ByClaim(tx: nat) | ByPull(tx: nat) | ByWorker(epoch: Epoch)

  /** A `lease` call. `busy` is the list of leased sources as its first query read it. */
  datatype Claim =
    | Scanning(worker: string, now: Time, busy: set<SourceId>)
    | RowHeld(worker: string, now: Time, busy: set<SourceId>, job: JobId)
    | SourceHeld(worker: string, now: Time, busy: set<SourceId>, job: JobId)
    | Cleared(worker: string, now: Time, job: JobId)

  /** A manual pull under the source row lock, before and after it chose a queued job to widen. */
  datatype Pull = Holding(source: SourceId) | Chosen(source: SourceId, job: JobId)

  /** A request that edits a connection: it loads the row, compares the edited fields with a
      second read, and later writes every column. */
  datatype Form =
    | Opened(source: SourceId, row: Source)
    | Compared(source: SourceId, row: Source, roleArn: string, capabilities: set<string>, changed: bool)

  /** Where the thread of one lease is inside `publish_month`. The revision is the one
      `get_or_create` read before the transaction. */
  datatype Phase =
    | Idle
    | PeriodRead(month: Month, batch: seq<CostRow>, revision: nat)
    | JobHeld(month: Month, batch: seq<CostRow>, revision: nat)
    | AccountsPending(month: Month, batch: seq<CostRow>, revision: nat, todo: set<AccountId>)
    | Checked(month: Month, batch: seq<CostRow>, revision: nat)

  /** The thread that runs one lease: its copy of the job row and of the source. */
  datatype Handle = Handle(
    worker: string,
    maxAttempts: nat,
    source: Option<SourceId>,
    version: Option<nat>,
    monthsBack: nat,
    completed: set<Month>,
    loaded: Option<Connection>,
    ticket: nat,
    phase: Phase)

  datatype LeaseRecord = LeaseRecord(epoch: Epoch, source: Option<SourceId>)
  datatype Publication = Publication(epoch: Epoch, ticket: nat, source: SourceId, month: Month,
                                     batch: seq<CostRow>, revision: nat, version: nat)
  /** Verification, discovery and budget import publish their result under the source row
      with the same comparison; `Check` is one of them between its load and its commit. */
  datatype Check = Check(source: SourceId, conn: Connection)
  datatype Evidence = Evidence(source: SourceId, version: nat)
  datatype Collected = Collected(epoch: Epoch, source: SourceId, months: set<Month>)

  /** The database, its row locks, the transactions and threads in progress, and the log of
      leases, publications and successful collection runs. */
  datatype System = System(
    now: Time,
    jobs: Jobs,
    nextJob: JobId,
    sources: map<SourceId, Source>,
    costs: set<CostRow>,
    periods: map<(SourceId, Month), Period>,
    claims: map<nat, Claim>,
    pulls: map<nat, Pull>,
    forms: map<nat, Form>,
    handles: map<Epoch, Handle>,
    checks: map<nat, Check>,
    jobLock: map<JobId, Owner>,
    sourceLock: map<SourceId, Owner>,
    accountLock: map<AccountId, Owner>,
    leases: seq<LeaseRecord>,
    pubs: seq<Publication>,
    evidence: seq<Evidence>,
    collected: seq<Collected>)

  datatype QueueStep =
    | Tick(time: Time)
    | Enqueue(job: Job)
    | Coalesce(id: JobId, runAfter: Time, priority: nat)
    | BeginPull(tx: nat, s: SourceId)
    | ChooseJob(tx: nat, id: JobId)
    | WritePull(tx: nat, monthsBack: nat)
    | EndPull(tx: nat)
    | BeginLease(tx: nat, worker: string)
    | PickRow(tx: nat, id: JobId)
    | SkipRow(tx: nat)
    | HoldSource(tx: nat)
    | Recheck(tx: nat)
    | CommitLease(tx: nat)
    | AbortLease(tx: nat)
    | Renew(e: Epoch, save: bool)
    | CompleteJob(e: Epoch)
    | FailJob(e: Epoch, permanent: bool, delay: int)
    | RecoverJob(id: JobId, seen: Job, delay: int)

  datatype OperatorStep =
    | StopCustomer(stopped: set<SourceId>)
    | Rotate(s: SourceId, externalId: string)
    | SetEnabled(s: SourceId, enabled: bool)
    | SetCustomerActive(s: SourceId, active: bool)
    | DropQueued(s: SourceId)
    | OpenForm(tx: nat, s: SourceId)
    | CompareForm(tx: nat, roleArn: string, capabilities: set<string>)
    | SaveForm(tx: nat)

  datatype CollectorStep =
    | LoadSource(e: Epoch)
    | ReadPeriod(e: Epoch, month: Month, batch: seq<CostRow>)
    | LockJob(e: Epoch)
    | LockSource(e: Epoch)
    | LockAccount(e: Epoch, account: AccountId)
    | CheckOverlap(e: Epoch)
    | CommitPublication(e: Epoch)
    | AbortPublication(e: Epoch)
    | FinishCollection(e: Epoch, months: set<Month>)
    | LoadForCheck(tx: nat, s: SourceId)
    | CommitCheck(tx: nat)

  datatype Step = OfQueue(queue: QueueStep) | OfOperator(operator: OperatorStep) | OfCollector(collector: CollectorStep)

  // --- Helpers -------------------------------------------------------------------------

  function Release<K>(locks: map<K, Owner>, o: Owner): map<K, Owner> {
    map k | k in locks && locks[k] != o :: locks[k]
  }

  function LeasedSources(jobs: Jobs): set<SourceId> {
    set id | id in jobs && jobs[id].status == Leased && jobs[id].source.Some? :: jobs[id].source.value
  }

  function CopyOf(e: Epoch, h: Handle): Held {
    Held(e, h.worker, h.maxAttempts)
  }

  function Accounts(batch: seq<CostRow>): set<AccountId> {
    set r | r in batch :: r.account
  }

  /** What `fetch_month` guarantees of the records it returns. */
  predicate BatchOf(conn: Connection, s: SourceId, m: Month, batch: seq<CostRow>) {
    forall r :: r in batch ==>
      r.source == s && r.day.month == m && (conn.kind == Standalone ==> r.account == conn.account)
  }

  /** The unique constraint on (source, day, account, service, currency). */
  predicate DistinctSlices(batch: seq<CostRow>) {
    forall i, j :: 0 <= i < j < |batch| ==> !batch[i].SameSlice(batch[j])
  }

  predicate InMonth(r: CostRow, s: SourceId, m: Month) {
    r.source == s && r.day.month == m
  }

  /** Delete the month of the source, insert the batch. */
  function Replace(costs: set<CostRow>, s: SourceId, m: Month, batch: seq<CostRow>): set<CostRow> {
    (set r | r in costs && !InMonth(r, s, m)) + (set r | r in batch)
  }

  predicate ForeignRow(costs: set<CostRow>, s: SourceId, account: AccountId, day: Date) {
    exists r :: r in costs && r.source != s && r.account == account && r.day == day
  }

  predicate Overlaps(costs: set<CostRow>, s: SourceId, batch: seq<CostRow>) {
    exists b :: b in batch && ForeignRow(costs, s, b.account, b.day)
  }

  predicate SourceUnchanged(sys: System, s: SourceId, conn: Connection) {
    && s in sys.sources
    && sys.sources[s].enabled
    && sys.sources[s].customerActive
    && sys.sources[s].conn == conn
  }

  predicate Free<K>(locks: map<K, Owner>, k: K) {
    k !in locks
  }

  predicate InScope(j: Job, stopped: set<SourceId>) {
    j.Active() && j.source.Some? && j.source.value in stopped
  }

  function WithPhase(sys: System, e: Epoch, p: Phase): System
    requires e in sys.handles
  {
    sys.(handles := sys.handles[e := sys.handles[e].(phase := p)])
  }

  // --- Steps of the queue --------------------------------------------------------------

  /** The insert fails on the unique index when an active job has the key. */
  ghost predicate CanEnqueue(sys: System, job: Job) {
    && job.status == Queued && job.attempts == 0 && job.maxAttempts >= 1 && job.completed == {}
    && forall id :: id in sys.jobs && sys.jobs[id].Active() ==> sys.jobs[id].key != job.key
  }

  function AfterEnqueue(sys: System, job: Job): System {
    sys.(jobs := sys.jobs[sys.nextJob := job], nextJob := sys.nextJob + 1)
  }

  predicate CanCoalesce(sys: System, id: JobId) {
    id in sys.jobs && sys.jobs[id].status == Queued && Free(sys.jobLock, id)
  }

  function AfterCoalesce(sys: System, id: JobId, runAfter: Time, priority: nat): System
    requires CanCoalesce(sys, id)
  {
    sys.(jobs := sys.jobs[id := Sooner(sys.jobs[id], runAfter, priority)])
  }

  /** `_request_pull` locks the source row first. */
  predicate CanBeginPull(sys: System, tx: nat, s: SourceId) {
    tx !in sys.pulls && s in sys.sources && Free(sys.sourceLock, s)
  }

  function AfterBeginPull(sys: System, tx: nat, s: SourceId): System {
    sys.(pulls := sys.pulls[tx := Holding(s)], sourceLock := sys.sourceLock[s := ByPull(tx)])
  }

  /** It reads a pending job of the source, without a lock on the job, and finds it queued. */
  predicate CanChooseJob(sys: System, tx: nat, id: JobId) {
    && tx in sys.pulls && sys.pulls[tx].Holding? && sys.pulls[tx].source in sys.sources
    && id in sys.jobs && sys.jobs[id].status == Queued && sys.jobs[id].source == Some(sys.pulls[tx].source)
    && (sys.jobs[id].version.None? || sys.jobs[id].version == Some(sys.sources[sys.pulls[tx].source].conn.version))
  }

  function AfterChooseJob(sys: System, tx: nat, id: JobId): System
    requires CanChooseJob(sys, tx, id)
  {
    sys.(pulls := sys.pulls[tx := Chosen(sys.pulls[tx].source, id)])
  }

  /** Later it writes the payload, whatever status the row has by then; a row that is gone makes
      the whole pull fail. */
  predicate CanWritePull(sys: System, tx: nat) {
    && tx in sys.pulls && sys.pulls[tx].Chosen? && sys.pulls[tx].source in sys.sources
    && Free(sys.jobLock, sys.pulls[tx].job)
  }

  function AfterWritePull(sys: System, tx: nat, monthsBack: nat): System
    requires CanWritePull(sys, tx)
  {
    var id, version := sys.pulls[tx].job, sys.sources[sys.pulls[tx].source].conn.version;
    var jobs := if id in sys.jobs then sys.jobs[id := sys.jobs[id].(monthsBack := monthsBack, version := Some(version))] else sys.jobs;
    AfterEndPull(sys, tx).(jobs := jobs)
  }

  /** Commit without a write, or roll back. */
  function AfterEndPull(sys: System, tx: nat): System {
    sys.(pulls := map t | t in sys.pulls && t != tx :: sys.pulls[t], sourceLock := Release(sys.sourceLock, ByPull(tx)))
  }

  predicate CanIssue(sys: System, e: Epoch) {
    e in sys.handles && sys.handles[e].phase.Idle? && Free(sys.jobLock, e.job)
  }

  function AfterRenew(sys: System, e: Epoch, save: bool): System
    requires CanIssue(sys, e)
  {
    var progress := if save then Some(sys.handles[e].completed) else None;
    sys.(jobs := Heartbeat(sys.jobs, CopyOf(e, sys.handles[e]), sys.now, progress))
  }

  function AfterComplete(sys: System, e: Epoch): System
    requires CanIssue(sys, e)
  {
    sys.(jobs := Complete(sys.jobs, CopyOf(e, sys.handles[e]), sys.handles[e].completed))
  }

  function AfterFail(sys: System, e: Epoch, permanent: bool, delay: int): System
    requires CanIssue(sys, e)
  {
    sys.(jobs := Fail(sys.jobs, CopyOf(e, sys.handles[e]), sys.now, permanent, delay, sys.handles[e].completed))
  }

  predicate CanRecover(sys: System, id: JobId, seen: Job, delay: int) {
    && Free(sys.jobLock, id) && Delay(seen.attempts, delay)
    && (id in sys.jobs ==> seen.maxAttempts == sys.jobs[id].maxAttempts)
  }

  function AfterRecover(sys: System, id: JobId, seen: Job, delay: int): System {
    sys.(jobs := Recover(sys.jobs, id, seen, sys.now, delay))
  }

  // --- Steps of a lease transaction ------------------------------------------------------

  function AfterBeginLease(sys: System, tx: nat, worker: string): System {
    sys.(claims := sys.claims[tx := Scanning(worker, sys.now, LeasedSources(sys.jobs))])
  }

  predicate CanPickRow(sys: System, tx: nat, id: JobId) {
    && tx in sys.claims && sys.claims[tx].Scanning?
    && id in sys.jobs && sys.jobs[id].status == Queued && sys.jobs[id].runAfter <= sys.claims[tx].now
    && (sys.jobs[id].source.Some? ==> sys.jobs[id].source.value !in sys.claims[tx].busy)
    && Free(sys.jobLock, id)
  }

  function AfterPickRow(sys: System, tx: nat, id: JobId): System
    requires CanPickRow(sys, tx, id)
  {
    var c := sys.claims[tx];
    sys.(claims := sys.claims[tx := RowHeld(c.worker, c.now, c.busy, id)],
         jobLock := sys.jobLock[id := ByClaim(tx)])
  }

  /** The candidate's source row is locked elsewhere or gone. */
  predicate CanSkipRow(sys: System, tx: nat) {
    && tx in sys.claims && sys.claims[tx].RowHeld?
    && sys.claims[tx].job in sys.jobs && sys.jobs[sys.claims[tx].job].source.Some?
  }

  function AfterSkipRow(sys: System, tx: nat): System
    requires CanSkipRow(sys, tx)
  {
    var c := sys.claims[tx];
    sys.(claims := sys.claims[tx := Scanning(c.worker, c.now, c.busy)])
  }

  predicate CanHoldSource(sys: System, tx: nat) {
    && CanSkipRow(sys, tx)
    && var s := sys.jobs[sys.claims[tx].job].source.value;
    s in sys.sources && (Free(sys.sourceLock, s) || sys.sourceLock[s] == ByClaim(tx))
  }

  function AfterHoldSource(sys: System, tx: nat): System
    requires CanHoldSource(sys, tx)
  {
    var c := sys.claims[tx];
    sys.(claims := sys.claims[tx := SourceHeld(c.worker, c.now, c.busy, c.job)],
         sourceLock := sys.sourceLock[sys.jobs[c.job].source.value := ByClaim(tx)])
  }

  predicate CanRecheck(sys: System, tx: nat) {
    && tx in sys.claims && sys.claims[tx].SourceHeld?
    && sys.claims[tx].job in sys.jobs && sys.jobs[sys.claims[tx].job].source.Some?
  }

  /** With the source row held: skip the candidate, or go on to claim it. */
  ghost function AfterRecheck(sys: System, tx: nat): System
    requires CanRecheck(sys, tx)
  {
    var c := sys.claims[tx];
    var next := if SourceLeased(sys.jobs, sys.jobs[c.job].source.value)
                then Scanning(c.worker, c.now, c.busy)
                else Cleared(c.worker, c.now, c.job);
    sys.(claims := sys.claims[tx := next])
  }

  predicate CanCommitLease(sys: System, tx: nat) {
    && tx in sys.claims && (sys.claims[tx].RowHeld? || sys.claims[tx].Cleared?)
    && sys.claims[tx].job in sys.jobs
    && (sys.claims[tx].RowHeld? ==> sys.jobs[sys.claims[tx].job].source.None?)
  }

  function AfterCommitLease(sys: System, tx: nat): System
    requires CanCommitLease(sys, tx)
  {
    var c := sys.claims[tx];
    var row := Claimed(sys.jobs[c.job], c.worker, c.now);
    var e := Epoch(c.job, row.attempts);
    AfterAbortLease(sys, tx).(
      jobs := sys.jobs[c.job := row],
      handles := sys.handles[e := Handle(c.worker, row.maxAttempts, row.source, row.version, row.monthsBack,
                                         row.completed, None, |sys.leases|, Idle)],
      leases := sys.leases + [LeaseRecord(e, row.source)])
  }

  function AfterAbortLease(sys: System, tx: nat): System {
    sys.(claims := map t | t in sys.claims && t != tx :: sys.claims[t],
         jobLock := Release(sys.jobLock, ByClaim(tx)),
         sourceLock := Release(sys.sourceLock, ByClaim(tx)))
  }

  // --- Steps of operators ------------------------------------------------------------------

  ghost predicate CanStop(sys: System, stopped: set<SourceId>) {
    && (forall s :: s in stopped ==> s in sys.sources && Free(sys.sourceLock, s))
    && (forall id :: id in sys.jobs && InScope(sys.jobs[id], stopped) ==> Free(sys.jobLock, id))
  }

  function AfterStop(sys: System, stopped: set<SourceId>): System {
    sys.(
      sources := map s | s in sys.sources ::
        if s in stopped then
          sys.sources[s].(enabled := false, conn := sys.sources[s].conn.(version := sys.sources[s].conn.version + 1))
        else sys.sources[s],
      jobs := map id | id in sys.jobs ::
        if InScope(sys.jobs[id], stopped) then sys.jobs[id].(status := Failed) else sys.jobs[id])
  }

  predicate QueuedOf(j: Job, s: SourceId) {
    j.status == Queued && j.source == Some(s)
  }

  ghost predicate CanDropQueued(sys: System, s: SourceId) {
    forall id :: id in sys.jobs && QueuedOf(sys.jobs[id], s) ==> Free(sys.jobLock, id)
  }

  function AfterDropQueued(sys: System, s: SourceId): System {
    sys.(jobs := map id | id in sys.jobs && !QueuedOf(sys.jobs[id], s) :: sys.jobs[id])
  }

  ghost predicate CanRotate(sys: System, s: SourceId) {
    s in sys.sources && Free(sys.sourceLock, s) && CanDropQueued(sys, s)
  }

  function AfterRotate(sys: System, s: SourceId, externalId: string): System
    requires s in sys.sources
  {
    var conn := sys.sources[s].conn.(version := sys.sources[s].conn.version + 1, externalId := externalId);
    AfterDropQueued(sys, s).(sources := sys.sources[s := sys.sources[s].(conn := conn)])
  }

  function AfterSetEnabled(sys: System, s: SourceId, enabled: bool): System
    requires s in sys.sources
  {
    sys.(sources := sys.sources[s := sys.sources[s].(enabled := enabled)])
  }

  function AfterSetActive(sys: System, s: SourceId, active: bool): System
    requires s in sys.sources
  {
    sys.(sources := sys.sources[s := sys.sources[s].(customerActive := active)])
  }

  function AfterOpenForm(sys: System, tx: nat, s: SourceId): System
    requires s in sys.sources
  {
    sys.(forms := sys.forms[tx := Opened(s, sys.sources[s])])
  }

  predicate CanCompareForm(sys: System, tx: nat) {
    tx in sys.forms && sys.forms[tx].Opened? && sys.forms[tx].source in sys.sources
  }

  function AfterCompareForm(sys: System, tx: nat, roleArn: string, capabilities: set<string>): System
    requires CanCompareForm(sys, tx)
  {
    var f := sys.forms[tx];
    var previous := sys.sources[f.source].conn;
    sys.(forms := sys.forms[tx := Compared(f.source, f.row, roleArn, capabilities,
                                           roleArn != previous.roleArn || capabilities != previous.capabilities)])
  }

  predicate CanSaveForm(sys: System, tx: nat) {
    tx in sys.forms && sys.forms[tx].Compared? && sys.forms[tx].source in sys.sources && Free(sys.sourceLock, sys.forms[tx].source)
  }

  /** All columns of the row as the form loaded it, with the edited fields, and the loaded version
      raised if they had changed. Whether the customer is active is not part of the row. */
  function FormRow(f: Form, stored: Source): Source
    requires f.Compared?
  {
    var version := f.row.conn.version + if f.changed then 1 else 0;
    f.row.(customerActive := stored.customerActive,
           conn := f.row.conn.(roleArn := f.roleArn, capabilities := f.capabilities, version := version))
  }

  function AfterSaveForm(sys: System, tx: nat): System
    requires CanSaveForm(sys, tx)
  {
    var f := sys.forms[tx];
    sys.(sources := sys.sources[f.source := FormRow(f, sys.sources[f.source])],
         forms := map t | t in sys.forms && t != tx :: sys.forms[t])
  }

  // --- Steps of a collecting worker ----------------------------------------------------------

  predicate CanLoadSource(sys: System, e: Epoch) {
    && e in sys.handles && sys.handles[e].phase.Idle?
    && sys.handles[e].source.Some? && sys.handles[e].source.value in sys.sources
    && var source := sys.sources[sys.handles[e].source.value];
    (sys.handles[e].version.None? || sys.handles[e].version == Some(source.conn.version))
    && source.enabled && source.customerActive && source.conn.roleArn != ""
  }

  function AfterLoadSource(sys: System, e: Epoch): System
    requires CanLoadSource(sys, e)
  {
    var h := sys.handles[e];
    sys.(handles := sys.handles[e := h.(loaded := Some(sys.sources[h.source.value].conn))])
  }

  predicate CanReadPeriod(sys: System, e: Epoch, month: Month, batch: seq<CostRow>) {
    && e in sys.handles && sys.handles[e].phase.Idle?
    && sys.handles[e].source.Some? && sys.handles[e].loaded.Some?
    && sys.handles[e].loaded.value.kind != MemberBudgets
    && BatchOf(sys.handles[e].loaded.value, sys.handles[e].source.value, month, batch)
  }

  function AfterReadPeriod(sys: System, e: Epoch, month: Month, batch: seq<CostRow>): System
    requires CanReadPeriod(sys, e, month, batch)
  {
    var key := (sys.handles[e].source.value, month);
    var periods := if key in sys.periods then sys.periods else sys.periods[key := Period(0, 0)];
    WithPhase(sys.(periods := periods), e, PeriodRead(month, batch, periods[key].revision))
  }

  predicate CanLockJob(sys: System, e: Epoch) {
    && e in sys.handles && sys.handles[e].phase.PeriodRead?
    && Free(sys.jobLock, e.job) && Live(sys.jobs, CopyOf(e, sys.handles[e]), sys.now)
  }

  function AfterLockJob(sys: System, e: Epoch): System
    requires CanLockJob(sys, e)
  {
    var p := sys.handles[e].phase;
    WithPhase(sys.(jobLock := sys.jobLock[e.job := ByWorker(e)]), e, JobHeld(p.month, p.batch, p.revision))
  }

  predicate CanLockSource(sys: System, e: Epoch) {
    && e in sys.handles && sys.handles[e].phase.JobHeld?
    && sys.handles[e].source.Some? && sys.handles[e].loaded.Some?
    && Free(sys.sourceLock, sys.handles[e].source.value)
    && SourceUnchanged(sys, sys.handles[e].source.value, sys.handles[e].loaded.value)
  }

  function AfterLockSource(sys: System, e: Epoch): System
    requires CanLockSource(sys, e)
  {
    var p := sys.handles[e].phase;
    WithPhase(sys.(sourceLock := sys.sourceLock[sys.handles[e].source.value := ByWorker(e)]), e,
              AccountsPending(p.month, p.batch, p.revision, Accounts(p.batch)))
  }

  predicate CanLockAccount(sys: System, e: Epoch, account: AccountId) {
    && e in sys.handles && sys.handles[e].phase.AccountsPending?
    && account in sys.handles[e].phase.todo && Free(sys.accountLock, account)
  }

  function AfterLockAccount(sys: System, e: Epoch, account: AccountId): System
    requires CanLockAccount(sys, e, account)
  {
    var p := sys.handles[e].phase;
    WithPhase(sys.(accountLock := sys.accountLock[account := ByWorker(e)]), e,
              AccountsPending(p.month, p.batch, p.revision, p.todo - {account}))
  }

  predicate CanCheckOverlap(sys: System, e: Epoch) {
    && e in sys.handles && sys.handles[e].phase.AccountsPending? && sys.handles[e].phase.todo == {}
    && sys.handles[e].source.Some?
    && !Overlaps(sys.costs, sys.handles[e].source.value, sys.handles[e].phase.batch)
  }

  function AfterCheckOverlap(sys: System, e: Epoch): System
    requires CanCheckOverlap(sys, e)
  {
    var p := sys.handles[e].phase;
    WithPhase(sys, e, Checked(p.month, p.batch, p.revision))
  }

  ghost predicate CanCommitPublication(sys: System, e: Epoch) {
    && e in sys.handles && sys.handles[e].phase.Checked?
    && sys.handles[e].source.Some? && sys.handles[e].loaded.Some?
    && DistinctSlices(sys.handles[e].phase.batch)
  }

  function AfterCommitPublication(sys: System, e: Epoch): System
    requires e in sys.handles && sys.handles[e].phase.Checked?
    requires sys.handles[e].source.Some? && sys.handles[e].loaded.Some?
  {
    var h := sys.handles[e];
    var p := h.phase;
    var s := h.source.value;
    AfterAbortPublication(sys, e).(
      costs := Replace(sys.costs, s, p.month, p.batch),
      periods := sys.periods[(s, p.month) := Period(p.revision + 1, |p.batch|)],
      handles := sys.handles[e := h.(phase := Idle, completed := h.completed + {p.month})],
      pubs := sys.pubs + [Publication(e, h.ticket, s, p.month, p.batch, p.revision + 1, h.loaded.value.version)])
  }

  function AfterAbortPublication(sys: System, e: Epoch): System
    requires e in sys.handles
  {
    WithPhase(sys.(jobLock := Release(sys.jobLock, ByWorker(e)),
                   sourceLock := Release(sys.sourceLock, ByWorker(e)),
                   accountLock := Release(sys.accountLock, ByWorker(e))), e, Idle)
  }

  /** The end of `collect_source`: every requested month is in `completed`, and the job and
      the source pass the checks of a publication once more. */
  predicate CanFinish(sys: System, e: Epoch, months: set<Month>) {
    && e in sys.handles && sys.handles[e].phase.Idle? && months <= sys.handles[e].completed
    && sys.handles[e].source.Some? && sys.handles[e].loaded.Some?
    && Free(sys.jobLock, e.job) && Live(sys.jobs, CopyOf(e, sys.handles[e]), sys.now)
    && Free(sys.sourceLock, sys.handles[e].source.value)
    && SourceUnchanged(sys, sys.handles[e].source.value, sys.handles[e].loaded.value)
  }

  function AfterFinish(sys: System, e: Epoch, months: set<Month>): System
    requires CanFinish(sys, e, months)
  {
    var s := sys.handles[e].source.value;
    sys.(sources := sys.sources[s := sys.sources[s].(imported := true)],
         collected := sys.collected + [Collected(e, s, months)])
  }

  function AfterLoadForCheck(sys: System, tx: nat, s: SourceId): System
    requires s in sys.sources
  {
    sys.(checks := sys.checks[tx := Check(s, sys.sources[s].conn)])
  }

  predicate CanCommitCheck(sys: System, tx: nat) {
    && tx in sys.checks && Free(sys.sourceLock, sys.checks[tx].source)
    && SourceUnchanged(sys, sys.checks[tx].source, sys.checks[tx].conn)
  }

  function AfterCommitCheck(sys: System, tx: nat): System
    requires CanCommitCheck(sys, tx)
  {
    var c := sys.checks[tx];
    sys.(evidence := sys.evidence + [Evidence(c.source, c.conn.version)])
  }

  // --- The step relation -------------------------------------------------------------------------

  ghost predicate QueueNext(sys: System, step: QueueStep, next: System) {
    match step
    case Tick(time) => time >= sys.now && next == sys.(now := time)
    case Enqueue(job) => CanEnqueue(sys, job) && next == AfterEnqueue(sys, job)
    case Coalesce(id, runAfter, priority) =>
      CanCoalesce(sys, id) && next == AfterCoalesce(sys, id, runAfter, priority)
    case BeginPull(tx, s) => CanBeginPull(sys, tx, s) && next == AfterBeginPull(sys, tx, s)
    case ChooseJob(tx, id) => CanChooseJob(sys, tx, id) && next == AfterChooseJob(sys, tx, id)
    case WritePull(tx, monthsBack) => CanWritePull(sys, tx) && next == AfterWritePull(sys, tx, monthsBack)
    case EndPull(tx) => tx in sys.pulls && next == AfterEndPull(sys, tx)
    case BeginLease(tx, worker) => tx !in sys.claims && next == AfterBeginLease(sys, tx, worker)
    case PickRow(tx, id) => CanPickRow(sys, tx, id) && next == AfterPickRow(sys, tx, id)
    case SkipRow(tx) => CanSkipRow(sys, tx) && next == AfterSkipRow(sys, tx)
    case HoldSource(tx) => CanHoldSource(sys, tx) && next == AfterHoldSource(sys, tx)
    case Recheck(tx) => CanRecheck(sys, tx) && next == AfterRecheck(sys, tx)
    case CommitLease(tx) => CanCommitLease(sys, tx) && next == AfterCommitLease(sys, tx)
    case AbortLease(tx) => tx in sys.claims && next == AfterAbortLease(sys, tx)
    case Renew(e, save) => CanIssue(sys, e) && next == AfterRenew(sys, e, save)
    case CompleteJob(e) => CanIssue(sys, e) && next == AfterComplete(sys, e)
    case FailJob(e, permanent, delay) =>
      CanIssue(sys, e) && Delay(e.attempts, delay) && next == AfterFail(sys, e, permanent, delay)
    case RecoverJob(id, seen, delay) =>
      CanRecover(sys, id, seen, delay) && next == AfterRecover(sys, id, seen, delay)
  }

  ghost predicate OperatorNext(sys: System, step: OperatorStep, next: System) {
    match step
    case StopCustomer(stopped) => CanStop(sys, stopped) && next == AfterStop(sys, stopped)
    case Rotate(s, externalId) => CanRotate(sys, s) && next == AfterRotate(sys, s, externalId)
    case SetEnabled(s, enabled) =>
      s in sys.sources && Free(sys.sourceLock, s) && next == AfterSetEnabled(sys, s, enabled)
    case SetCustomerActive(s, active) => s in sys.sources && next == AfterSetActive(sys, s, active)
    case DropQueued(s) => CanDropQueued(sys, s) && next == AfterDropQueued(sys, s)
    case OpenForm(tx, s) => tx !in sys.forms && s in sys.sources && next == AfterOpenForm(sys, tx, s)
    case CompareForm(tx, roleArn, capabilities) =>
      CanCompareForm(sys, tx) && next == AfterCompareForm(sys, tx, roleArn, capabilities)
    case SaveForm(tx) => CanSaveForm(sys, tx) && next == AfterSaveForm(sys, tx)
  }

  ghost predicate CollectorNext(sys: System, step: CollectorStep, next: System) {
    match step
    case LoadSource(e) => CanLoadSource(sys, e) && next == AfterLoadSource(sys, e)
    case ReadPeriod(e, month, batch) =>
      CanReadPeriod(sys, e, month, batch) && next == AfterReadPeriod(sys, e, month, batch)
    case LockJob(e) => CanLockJob(sys, e) && next == AfterLockJob(sys, e)
    case LockSource(e) => CanLockSource(sys, e) && next == AfterLockSource(sys, e)
    case LockAccount(e, account) => CanLockAccount(sys, e, account) && next == AfterLockAccount(sys, e, account)
    case CheckOverlap(e) => CanCheckOverlap(sys, e) && next == AfterCheckOverlap(sys, e)
    case CommitPublication(e) => CanCommitPublication(sys, e) && next == AfterCommitPublication(sys, e)
    case AbortPublication(e) => e in sys.handles && next == AfterAbortPublication(sys, e)
    case FinishCollection(e, months) => CanFinish(sys, e, months) && next == AfterFinish(sys, e, months)
    case LoadForCheck(tx, s) => s in sys.sources && next == AfterLoadForCheck(sys, tx, s)
    case CommitCheck(tx) => CanCommitCheck(sys, tx) && next == AfterCommitCheck(sys, tx)
  }

  ghost predicate Next(sys: System, step: Step, next: System) {
    match step
    case OfQueue(queue) => QueueNext(sys, queue, next)
    case OfOperator(operator) => OperatorNext(sys, operator, next)
    case OfCollector(collector) => CollectorNext(sys, collector, next)
  }

  // --- Runs --------------------------------------------------------------------------------

  ghost predicate Initial(sys: System) {
    && sys.jobs == map[] && sys.costs == {} && sys.periods == map[] && sys.claims == map[] && sys.handles == map[]
    && sys.pulls == map[] && sys.forms == map[]
    && sys.jobLock == map[] && sys.sourceLock == map[] && sys.accountLock == map[]
    && sys.checks == map[] && sys.leases == [] && sys.pubs == [] && sys.evidence == [] && sys.collected == []
  }

  /** `states[i]` becomes `states[i + 1]` by `steps[i]`. */
  ghost predicate Run(states: seq<System>, steps: seq<Step>) {
    && |states| == |steps| + 1
    && Initial(states[0])
    && forall i :: 0 <= i < |steps| ==> Next(states[i], steps[i], states[i + 1])
  }
}
