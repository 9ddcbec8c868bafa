/** What the protocol achieves when nothing interferes: from any reachable state a due job can be
    leased, a month fetched under a live lease is published, and a run ends. */
module Undisturbed {
  import opened Options
  import opened JobTable
  import opened Calendar
  import opened Protocol
  import opened ProtocolInvariants

  ghost predicate Path(states: seq<System>, steps: seq<Step>) {
    |states| == |steps| + 1 && forall i :: 0 <= i < |steps| ==> Next(states[i], steps[i], states[i + 1])
  }

  /** Some steps lead from one state to the other. */
  ghost predicate Leads(from: System, to: System) {
    exists states, steps :: Path(states, steps) && states[0] == from && states[|steps|] == to
  }

  lemma Stay(sys: System)
    ensures Leads(sys, sys)
  {
    assert Path([sys], []);
  }

  lemma Continue(from: System, sys: System, step: Step, next: System)
    requires Leads(from, sys) && Next(sys, step, next)
    ensures Leads(from, next)
  {
    var states, steps :| Path(states, steps) && states[0] == from && states[|steps|] == sys;
    hide Next;
    var more, all := states + [next], steps + [step];
    assert Path(more, all) && more[0] == from && more[|all|] == next;
  }

  lemma ByQueue(from: System, sys: System, step: QueueStep, next: System)
    requires Leads(from, sys) && QueueNext(sys, step, next)
    ensures Leads(from, next)
  {
    hide Leads, QueueNext;
    Continue(from, sys, OfQueue(step), next);
  }

  lemma ByCollector(from: System, sys: System, step: CollectorStep, next: System)
    requires Leads(from, sys) && CollectorNext(sys, step, next)
    ensures Leads(from, next)
  {
    hide Leads, CollectorNext;
    Continue(from, sys, OfCollector(step), next);
  }

  lemma ByOperator(from: System, sys: System, step: OperatorStep, next: System)
    requires Leads(from, sys) && OperatorNext(sys, step, next)
    ensures Leads(from, next)
  {
    hide Leads, OperatorNext;
    Continue(from, sys, OfOperator(step), next);
  }

  // --- A lease ---------------------------------------------------------------------------------

  /** The row is due and free, and so is the row of its source, which has no leased job. */
  ghost predicate Due(sys: System, tx: nat, id: JobId) {
    && tx !in sys.claims && id in sys.jobs && sys.jobs[id].status == Queued && sys.jobs[id].runAfter <= sys.now
    && Free(sys.jobLock, id)
    && (sys.jobs[id].source.Some? ==>
          && var s := sys.jobs[id].source.value;
          s in sys.sources && Free(sys.sourceLock, s) && !SourceLeased(sys.jobs, s))
  }

  /** The worker holds the job for ten minutes under one more attempt, with the payload and the progress
      of its row, and no other row changed. */
  ghost predicate LeasedTo(sys: System, next: System, id: JobId, worker: string)
    requires id in sys.jobs
  {
    var e := Epoch(id, sys.jobs[id].attempts + 1);
    && id in next.jobs && next.jobs == sys.jobs[id := next.jobs[id]]
    && next.jobs[id] == sys.jobs[id].(status := Leased, worker := worker, attempts := e.attempts, leaseExpires := Some(sys.now + 600 * SECOND))
    && e in next.handles && next.handles[e].phase.Idle? && next.handles[e].loaded.None?
    && CopyOf(e, next.handles[e]) == Held(e, worker, sys.jobs[id].maxAttempts)
    && next.handles[e].source == sys.jobs[id].source && next.handles[e].version == sys.jobs[id].version
    && next.handles[e].monthsBack == sys.jobs[id].monthsBack && next.handles[e].completed == sys.jobs[id].completed
    && Live(next.jobs, CopyOf(e, next.handles[e]), sys.now)
    && next.sources == sys.sources && next.costs == sys.costs && next.now == sys.now
    && Free(next.jobLock, id) && (sys.jobs[id].source.Some? ==> Free(next.sourceLock, sys.jobs[id].source.value))
  }

  lemma NotBusy(sys: System, id: JobId)
    requires id in sys.jobs && sys.jobs[id].source.Some? && !SourceLeased(sys.jobs, sys.jobs[id].source.value)
    ensures sys.jobs[id].source.value !in LeasedSources(sys.jobs)
  {
  }

  lemma ScanBegins(sys: System, tx: nat, worker: string)
    requires tx !in sys.claims
    ensures Leads(sys, AfterBeginLease(sys, tx, worker))
  {
    hide Leads, LeasedSources;
    Stay(sys);
    ByQueue(sys, sys, BeginLease(tx, worker), AfterBeginLease(sys, tx, worker));
  }

  lemma RowCanBePicked(sys: System, tx: nat, id: JobId, worker: string)
    requires Due(sys, tx, id)
    ensures CanPickRow(AfterBeginLease(sys, tx, worker), tx, id)
  {
    hide LeasedSources, SourceLeased, Free;
    if sys.jobs[id].source.Some? {
      NotBusy(sys, id);
    }
    ScanStarts(sys, tx, worker);
    hide AfterBeginLease;
  }

  lemma ScanStarts(sys: System, tx: nat, worker: string)
    ensures
      var s1 := AfterBeginLease(sys, tx, worker);
      && s1.jobs == sys.jobs && s1.jobLock == sys.jobLock && tx in s1.claims
      && s1.claims[tx] == Scanning(worker, sys.now, LeasedSources(sys.jobs))
  {
    hide LeasedSources;
  }

  lemma RowIsPicked(sys: System, tx: nat, id: JobId, worker: string) returns (next: System)
    requires Due(sys, tx, id)
    ensures Leads(sys, next)
    ensures next == sys.(claims := sys.claims[tx := RowHeld(worker, sys.now, LeasedSources(sys.jobs), id)],
                         jobLock := sys.jobLock[id := ByClaim(tx)])
  {
    hide Leads, Claimed, Release;
    var s1 := AfterBeginLease(sys, tx, worker);
    ScanBegins(sys, tx, worker);
    RowCanBePicked(sys, tx, id, worker);
    hide LeasedSources, SourceLeased;
    next := AfterPickRow(s1, tx, id);
    assert next.claims == sys.claims[tx := RowHeld(worker, sys.now, LeasedSources(sys.jobs), id)];
    ByQueue(sys, s1, PickRow(tx, id), next);
  }

  lemma SourceIsCleared(from: System, sys: System, tx: nat, id: JobId) returns (next: System)
    requires Leads(from, sys) && CanHoldSource(sys, tx) && sys.claims[tx].job == id && !SourceLeased(sys.jobs, sys.jobs[id].source.value)
    ensures Leads(from, next) && CanCommitLease(next, tx)
    ensures next == sys.(claims := next.claims, sourceLock := sys.sourceLock[sys.jobs[id].source.value := ByClaim(tx)])
    ensures next.claims[tx] == Cleared(sys.claims[tx].worker, sys.claims[tx].now, id)
  {
    hide Leads, Claimed, Release, LeasedSources;
    var s1 := AfterHoldSource(sys, tx);
    ByQueue(from, sys, HoldSource(tx), s1);
    next := AfterRecheck(s1, tx);
    ByQueue(from, s1, Recheck(tx), next);
  }

  /** A due job can be leased. */
  lemma DueJobIsLeased(sys: System, tx: nat, id: JobId, worker: string) returns (next: System)
    requires Due(sys, tx, id)
    ensures Leads(sys, next) && LeasedTo(sys, next, id, worker)
  {
    hide Leads, SourceLeased, LeasedSources, LeasedTo, AfterCommitLease;
    var held := RowIsPicked(sys, tx, id, worker);
    if sys.jobs[id].source.Some? {
      held := SourceIsCleared(sys, held, tx, id);
    }
    next := AfterCommitLease(held, tx);
    ByQueue(sys, held, CommitLease(tx), next);
    LeaseGranted(sys, held, tx, id, worker);
  }

  lemma LeaseGranted(sys: System, held: System, tx: nat, id: JobId, worker: string)
    requires id in sys.jobs && CanCommitLease(held, tx) && held.claims[tx].job == id && held.claims[tx].worker == worker
    requires held.claims[tx].now == sys.now && held.jobs == sys.jobs && held.sources == sys.sources && held.costs == sys.costs
    requires held.now == sys.now
    requires id in held.jobLock && held.jobLock[id] == ByClaim(tx)
    requires sys.jobs[id].source.Some? ==>
               sys.jobs[id].source.value in held.sourceLock && held.sourceLock[sys.jobs[id].source.value] == ByClaim(tx)
    ensures LeasedTo(sys, AfterCommitLease(held, tx), id, worker)
  {
    LeaseLasts(sys.jobs, id, worker, sys.now);
  }

  lemma CandidateIsLeased(from: System, sys: System, tx: nat, id: JobId) returns (next: System)
    requires Leads(from, sys) && CanPickRow(sys, tx, id) && sys.jobs[id].source.Some?
    requires
      var s := sys.jobs[id].source.value;
      s in sys.sources && Free(sys.sourceLock, s) && !SourceLeased(sys.jobs, s)
    ensures Leads(from, next) && LeasedTo(sys.(now := sys.claims[tx].now), next.(now := sys.claims[tx].now), id, sys.claims[tx].worker)
  {
    hide Leads, SourceLeased, LeasedTo, AfterCommitLease;
    var picked := AfterPickRow(sys, tx, id);
    ByQueue(from, sys, PickRow(tx, id), picked);
    var held := SourceIsCleared(from, picked, tx, id);
    next := AfterCommitLease(held, tx);
    ByQueue(from, held, CommitLease(tx), next);
    var now := sys.claims[tx].now;
    LeaseGranted(sys.(now := now), held.(now := now), tx, id, sys.claims[tx].worker);
    LeaseIgnoresNow(held, tx, now);
  }

  lemma LeaseIgnoresNow(held: System, tx: nat, now: Time)
    requires CanCommitLease(held, tx)
    ensures CanCommitLease(held.(now := now), tx)
    ensures AfterCommitLease(held.(now := now), tx) == AfterCommitLease(held, tx).(now := now)
  {
  }

  /** A claim whose candidate cannot have its source goes on: it leases another due job whose row and
      source are free. */
  lemma NextCandidateIsLeased(sys: System, tx: nat, id: JobId) returns (next: System)
    requires CanSkipRow(sys, tx) && id in sys.jobs && sys.jobs[id].status == Queued && sys.jobs[id].runAfter <= sys.claims[tx].now
    requires Free(sys.jobLock, id) && sys.jobs[id].source.Some? && sys.jobs[id].source.value !in sys.claims[tx].busy
    requires
      var s := sys.jobs[id].source.value;
      s in sys.sources && Free(sys.sourceLock, s) && !SourceLeased(sys.jobs, s)
    ensures Leads(sys, next) && LeasedTo(sys.(now := sys.claims[tx].now), next.(now := sys.claims[tx].now), id, sys.claims[tx].worker)
  {
    hide Leads, SourceLeased, AfterCommitLease;
    Stay(sys);
    var skipped := AfterSkipRow(sys, tx);
    ByQueue(sys, sys, SkipRow(tx), skipped);
    next := CandidateIsLeased(sys, skipped, tx, id);
  }

  // --- A publication -----------------------------------------------------------------------------

  /** No two rows agree in source, day, account, service and currency. */
  predicate DifferentRows(batch: seq<CostRow>) {
    forall i, j :: 0 <= i < j < |batch| ==>
      var a, b := batch[i], batch[j];
      a.source != b.source || a.day != b.day || a.account != b.account || a.service != b.service || a.currency != b.currency
  }

  lemma DistinctSlicesExactly(batch: seq<CostRow>)
    ensures DistinctSlices(batch) <==> DifferentRows(batch)
  {
  }

  /** The thread holds a live lease of a source that publishes, and has work for one of its months that no
      other source has rows for. Nobody holds the rows and accounts it needs. */
  ghost predicate Ready(sys: System, e: Epoch, month: Month, batch: seq<CostRow>) {
    && e in sys.handles && sys.handles[e].phase.Idle? && Live(sys.jobs, CopyOf(e, sys.handles[e]), sys.now)
    && sys.handles[e].source.Some? && sys.handles[e].source.value in sys.sources
    && var s := sys.handles[e].source.value;
    var conn := sys.sources[s].conn;
    && sys.sources[s].enabled && sys.sources[s].customerActive && conn.roleArn != "" && conn.kind != MemberBudgets
    && (sys.handles[e].version.None? || sys.handles[e].version == Some(conn.version))
    && Free(sys.jobLock, e.job) && Free(sys.sourceLock, s) && (forall r :: r in batch ==> Free(sys.accountLock, r.account))
    && (forall r :: r in batch ==> r.source == s && r.day.month == month && (conn.kind == Standalone ==> r.account == conn.account))
    && DifferentRows(batch)
    && forall b, r :: b in batch && r in sys.costs && r.account == b.account && r.day == b.day ==> r.source == s
  }

  /** The month of the source is the batch, one revision later; nothing else of what is stored changed. */
  ghost predicate PublishedMonth(sys: System, next: System, e: Epoch, month: Month, batch: seq<CostRow>)
    requires e in sys.handles && sys.handles[e].source.Some?
  {
    var s := sys.handles[e].source.value;
    var before := if (s, month) in sys.periods then sys.periods[(s, month)].revision else 0;
    && next.jobs == sys.jobs && next.sources == sys.sources && next.now == sys.now && next.evidence == sys.evidence
    && (forall r :: r in next.costs <==> if InMonth(r, s, month) then r in batch else r in sys.costs)
    && (s, month) in next.periods && next.periods == sys.periods[(s, month) := Period(before + 1, |batch|)]
    && |next.pubs| == |sys.pubs| + 1 && sys.pubs <= next.pubs
    && e in next.handles && next.handles[e] == sys.handles[e].(loaded := next.handles[e].loaded, completed := sys.handles[e].completed + {month})
    && s in sys.sources && next.handles[e].loaded == Some(sys.sources[s].conn)
    && Free(next.jobLock, e.job) && Free(next.sourceLock, s) && forall a :: a in Accounts(batch) ==> Free(next.accountLock, a)
  }

  /** The states of the transaction differ in the thread, the period and the locks of the thread. */
  ghost predicate SameStore(a: System, b: System) {
    && b.jobs == a.jobs && b.sources == a.sources && b.costs == a.costs && b.now == a.now && b.pubs == a.pubs && b.evidence == a.evidence
  }

  /** The accounts are locked one by one. */
  lemma {:induction false} AccountsLocked(from: System, sys: System, e: Epoch) returns (next: System)
    requires Leads(from, sys) && Locking(sys, e)
    ensures Leads(from, next) && Locked(sys, next, e)
    decreases if e in sys.handles && sys.handles[e].phase.AccountsPending? then |sys.handles[e].phase.todo| else 0
  {
    if sys.handles[e].phase.todo == {} {
      next := sys;
    } else {
      var account :| account in sys.handles[e].phase.todo;
      var one := AfterLockAccount(sys, e, account);
      AccountIsLocked(from, sys, e, account);
      hide Leads, CollectorNext, AfterLockAccount, Locking, Locked;
      next := AccountsLocked(from, one, e);
      LockedTwice(sys, e, account, next);
    }
  }

  ghost predicate Locking(sys: System, e: Epoch) {
    && e in sys.handles && sys.handles[e].phase.AccountsPending?
    && forall a :: a in sys.handles[e].phase.todo ==> Free(sys.accountLock, a)
  }

  ghost predicate Locked(sys: System, next: System, e: Epoch) {
    && e in sys.handles && sys.handles[e].phase.AccountsPending?
    && next == sys.(accountLock := next.accountLock, handles := next.handles)
    && next.handles == sys.handles[e := sys.handles[e].(phase := sys.handles[e].phase.(todo := {}))]
    && MoreLocks(sys.accountLock, next.accountLock, e)
  }

  lemma LockedTwice(sys: System, e: Epoch, account: AccountId, next: System)
    requires CanLockAccount(sys, e, account) && Locked(AfterLockAccount(sys, e, account), next, e)
    ensures Locked(sys, next, e)
  {
  }

  /** More keys are locked, all of them by the thread. */
  ghost predicate MoreLocks<K(!new)>(locks: map<K, Owner>, more: map<K, Owner>, e: Epoch) {
    && (forall k :: k in locks ==> k in more)
    && (forall k :: k in more ==> more[k] == if k in locks then locks[k] else ByWorker(e))
  }

  lemma AccountIsLocked(from: System, sys: System, e: Epoch, account: AccountId)
    requires Leads(from, sys) && Locking(sys, e) && account in sys.handles[e].phase.todo
    ensures CanLockAccount(sys, e, account) && Leads(from, AfterLockAccount(sys, e, account))
    ensures
      var one := AfterLockAccount(sys, e, account);
      Locking(one, e) && one.handles[e].phase.todo == sys.handles[e].phase.todo - {account}
  {
    hide Leads;
    ByCollector(from, sys, LockAccount(e, account), AfterLockAccount(sys, e, account));
  }

  lemma PeriodIsRead(sys: System, e: Epoch, month: Month, batch: seq<CostRow>) returns (next: System)
    requires Ready(sys, e, month, batch)
    ensures Leads(sys, next)
    ensures
      var s := sys.handles[e].source.value;
      var periods := if (s, month) in sys.periods then sys.periods else sys.periods[(s, month) := Period(0, 0)];
      next == sys.(periods := periods,
                   handles := sys.handles[e := sys.handles[e].(loaded := Some(sys.sources[s].conn),
                                                               phase := PeriodRead(month, batch, periods[(s, month)].revision))])
  {
    assert BatchOf(sys.sources[sys.handles[e].source.value].conn, sys.handles[e].source.value, month, batch);
    hide Leads, Live, Overlaps, BatchOf, DistinctSlices, DifferentRows;
    Stay(sys);
    var s1 := AfterLoadSource(sys, e);
    ByCollector(sys, sys, LoadSource(e), s1);
    next := AfterReadPeriod(s1, e, month, batch);
    ByCollector(sys, s1, ReadPeriod(e, month, batch), next);
  }

  lemma RowsAreLocked(from: System, sys: System, e: Epoch) returns (next: System)
    requires Leads(from, sys) && CanLockJob(sys, e)
    requires sys.handles[e].source.Some? && sys.handles[e].loaded.Some? && Free(sys.sourceLock, sys.handles[e].source.value)
    requires SourceUnchanged(sys, sys.handles[e].source.value, sys.handles[e].loaded.value)
    ensures Leads(from, next)
    ensures
      var h := sys.handles[e];
      next == sys.(jobLock := sys.jobLock[e.job := ByWorker(e)], sourceLock := sys.sourceLock[h.source.value := ByWorker(e)],
                   handles := sys.handles[e := h.(phase := AccountsPending(h.phase.month, h.phase.batch, h.phase.revision,
                                                                           Accounts(h.phase.batch)))])
  {
    hide Leads, Live, Accounts;
    var s1 := AfterLockJob(sys, e);
    ByCollector(from, sys, LockJob(e), s1);
    next := AfterLockSource(s1, e);
    ByCollector(from, s1, LockSource(e), next);
  }

  lemma MonthIsCommitted(from: System, sys: System, e: Epoch) returns (next: System)
    requires Leads(from, sys) && CanCheckOverlap(sys, e) && sys.handles[e].loaded.Some? && DistinctSlices(sys.handles[e].phase.batch)
    ensures Leads(from, next) && CanCommitPublication(AfterCheckOverlap(sys, e), e)
    ensures next == AfterCommitPublication(AfterCheckOverlap(sys, e), e)
  {
    hide Leads, Live, Accounts, Overlaps, DistinctSlices, AfterCommitPublication;
    var s1 := AfterCheckOverlap(sys, e);
    ByCollector(from, sys, CheckOverlap(e), s1);
    next := AfterCommitPublication(s1, e);
    ByCollector(from, s1, CommitPublication(e), next);
  }

  /** A month that is ready is published. */
  lemma ReadyMonthIsPublished(sys: System, e: Epoch, month: Month, batch: seq<CostRow>) returns (next: System)
    requires Ready(sys, e, month, batch)
    ensures Leads(sys, next) && PublishedMonth(sys, next, e, month, batch)
  {
    DistinctSlicesExactly(batch);
    assert BatchOf(sys.sources[sys.handles[e].source.value].conn, sys.handles[e].source.value, month, batch);
    hide Leads, BatchOf, DistinctSlices, AfterCommitPublication, PublishedMonth;
    var read := PeriodIsRead(sys, e, month, batch);
    var locked := RowsAreLocked(sys, read, e);
    var checked := AccountsLocked(sys, locked, e);
    assert Prepared(sys, checked, e, month, batch);
    hide Ready, Prepared, Locking, Locked;
    CanCheck(sys, checked, e, month, batch);
    next := MonthIsCommitted(sys, checked, e);
    CommittedMonth(sys, checked, e, month, batch);
  }

  /** The transaction has read the period, locked what it needs and is about to check and commit. */
  ghost predicate Prepared(sys: System, checked: System, e: Epoch, month: Month, batch: seq<CostRow>) {
    && e in sys.handles && sys.handles[e].source.Some? && e in checked.handles && SameStore(sys, checked)
    && var s := sys.handles[e].source.value;
    var periods := if (s, month) in sys.periods then sys.periods else sys.periods[(s, month) := Period(0, 0)];
    && s in sys.sources && checked.periods == periods
    && checked.handles[e] == sys.handles[e].(loaded := Some(sys.sources[s].conn),
                                             phase := AccountsPending(month, batch, periods[(s, month)].revision, {}))
    && checked.jobLock == sys.jobLock[e.job := ByWorker(e)] && checked.sourceLock == sys.sourceLock[s := ByWorker(e)]
    && MoreLocks(sys.accountLock, checked.accountLock, e)
  }

  lemma CanCheck(sys: System, checked: System, e: Epoch, month: Month, batch: seq<CostRow>)
    requires Ready(sys, e, month, batch) && Prepared(sys, checked, e, month, batch)
    ensures CanCheckOverlap(checked, e) && checked.handles[e].loaded.Some? && DistinctSlices(checked.handles[e].phase.batch)
  {
    DistinctSlicesExactly(batch);
    hide Live, BatchOf, DistinctSlices, MoreLocks;
  }

  lemma LocksReturned(sys: System, checked: System, e: Epoch, month: Month, batch: seq<CostRow>)
    requires Ready(sys, e, month, batch) && Prepared(sys, checked, e, month, batch) && CanCheckOverlap(checked, e)
    ensures
      var next := AfterCommitPublication(AfterCheckOverlap(checked, e), e);
      Free(next.jobLock, e.job) && Free(next.sourceLock, sys.handles[e].source.value) && forall a :: a in Accounts(batch) ==> Free(next.accountLock, a)
  {
    hide Live, DifferentRows, Overlaps, Replace, SameStore;
  }

  lemma CommittedMonth(sys: System, checked: System, e: Epoch, month: Month, batch: seq<CostRow>)
    requires Ready(sys, e, month, batch) && Prepared(sys, checked, e, month, batch) && CanCheckOverlap(checked, e)
    requires CanCommitPublication(AfterCheckOverlap(checked, e), e)
    ensures PublishedMonth(sys, AfterCommitPublication(AfterCheckOverlap(checked, e), e), e, month, batch)
  {
    LocksReturned(sys, checked, e, month, batch);
    var next, s := AfterCommitPublication(AfterCheckOverlap(checked, e), e), sys.handles[e].source.value;
    var before := if (s, month) in sys.periods then sys.periods[(s, month)].revision else 0;
    assert BatchOf(sys.sources[s].conn, s, month, batch);
    CostsBecome(sys.costs, sys.sources[s].conn, s, month, batch);
    hide Live, BatchOf, DistinctSlices, DifferentRows, Overlaps, Replace, InMonth, Ready, MoreLocks, Release, Accounts;
    assert next.periods == sys.periods[(s, month) := Period(before + 1, |batch|)];
    assert next.costs == Replace(sys.costs, s, month, batch);
  }

  lemma CostsBecome(costs: set<CostRow>, conn: Connection, s: SourceId, month: Month, batch: seq<CostRow>)
    requires BatchOf(conn, s, month, batch)
    ensures forall r :: r in Replace(costs, s, month, batch) <==> if InMonth(r, s, month) then r in batch else r in costs
  {
  }

  // --- The end of a run ----------------------------------------------------------------------------

  /** A live worker that loaded the connection as it still is can end its run and complete its job. */
  lemma RunCanEnd(sys: System, e: Epoch) returns (next: System)
    requires e in sys.handles && sys.handles[e].phase.Idle? && Live(sys.jobs, CopyOf(e, sys.handles[e]), sys.now)
    requires sys.handles[e].source.Some? && sys.handles[e].loaded.Some? && Free(sys.jobLock, e.job)
    requires Free(sys.sourceLock, sys.handles[e].source.value)
    requires SourceUnchanged(sys, sys.handles[e].source.value, sys.handles[e].loaded.value)
    ensures Leads(sys, next)
    ensures
      var s, id := sys.handles[e].source.value, e.job;
      && id in next.jobs && next.jobs == sys.jobs[id := next.jobs[id]]
      && next.jobs[id].status == Done && next.jobs[id].completed == sys.handles[e].completed && next.jobs[id].leaseExpires.None?
      && s in next.sources && next.sources[s] == sys.sources[s].(imported := true)
      && next.collected == sys.collected + [Collected(e, s, sys.handles[e].completed)]
      && next.costs == sys.costs
  {
    hide Leads, Complete;
    Stay(sys);
    var s1 := AfterFinish(sys, e, sys.handles[e].completed);
    ByCollector(sys, sys, FinishCollection(e, sys.handles[e].completed), s1);
    next := AfterComplete(s1, e);
    ByQueue(sys, s1, CompleteJob(e), next);
    CompleteEndsLease(sys.jobs, CopyOf(e, sys.handles[e]), sys.handles[e].completed);
  }

  // --- New jobs ----------------------------------------------------------------------------------------

  /** A job is inserted exactly if no active job has its key, as a new queued row without attempts; all
      other rows stay. */
  lemma EnqueuedExactly(sys: System, job: Job)
    requires job.status == Queued && job.attempts == 0 && job.maxAttempts >= 1 && job.completed == {}
    ensures (exists next :: Next(sys, OfQueue(Enqueue(job)), next)) <==>
            !exists id :: id in sys.jobs && (sys.jobs[id].status == Queued || sys.jobs[id].status == Leased) && sys.jobs[id].key == job.key
    ensures forall next :: Next(sys, OfQueue(Enqueue(job)), next) ==>
              && sys.nextJob in next.jobs && next.jobs[sys.nextJob] == job && next.nextJob == sys.nextJob + 1
              && (forall id :: id in sys.jobs && id != sys.nextJob ==> id in next.jobs && next.jobs[id] == sys.jobs[id])
              && next == sys.(jobs := next.jobs, nextJob := next.nextJob)
  {
    if !exists id :: id in sys.jobs && (sys.jobs[id].status == Queued || sys.jobs[id].status == Leased) && sys.jobs[id].key == job.key {
      assert CanEnqueue(sys, job);
      assert Next(sys, OfQueue(Enqueue(job)), AfterEnqueue(sys, job));
    }
  }

  // --- Operators ----------------------------------------------------------------------------------------

  /** Operators wait for the rows they change and for no others: a stop for the sources it stops and their
      active jobs, a rotation for its source and the queued jobs it deletes, a drop for those jobs. */
  lemma OperatorsNeedTheirRows(sys: System, stopped: set<SourceId>, s: SourceId, externalId: string)
    requires stopped <= sys.sources.Keys && s in sys.sources
    ensures (exists next :: Next(sys, OfOperator(StopCustomer(stopped)), next)) <==>
            && (forall t :: t in stopped ==> t !in sys.sourceLock)
            && forall id :: id in sys.jobs && sys.jobs[id].Active() && sys.jobs[id].source.Some? && sys.jobs[id].source.value in stopped ==> id !in sys.jobLock
    ensures (exists next :: Next(sys, OfOperator(DropQueued(s)), next)) <==>
            forall id :: id in sys.jobs && sys.jobs[id].status == Queued && sys.jobs[id].source == Some(s) ==> id !in sys.jobLock
    ensures (exists next :: Next(sys, OfOperator(Rotate(s, externalId)), next)) <==>
            && s !in sys.sourceLock
            && forall id :: id in sys.jobs && sys.jobs[id].status == Queued && sys.jobs[id].source == Some(s) ==> id !in sys.jobLock
  {
    StopNeedsRows(sys, stopped);
    DropNeedsRows(sys, s, externalId);
    hide Next, CanDropQueued, CanRotate, CanStop;
    assert CanDropQueued(sys, s) <==> exists next :: Next(sys, OfOperator(DropQueued(s)), next);
  }

  lemma StopNeedsRows(sys: System, stopped: set<SourceId>)
    requires stopped <= sys.sources.Keys
    ensures (exists next :: Next(sys, OfOperator(StopCustomer(stopped)), next)) <==>
            && (forall t :: t in stopped ==> t !in sys.sourceLock)
            && forall id :: id in sys.jobs && sys.jobs[id].Active() && sys.jobs[id].source.Some? && sys.jobs[id].source.value in stopped ==> id !in sys.jobLock
  {
    if CanStop(sys, stopped) {
      assert Next(sys, OfOperator(StopCustomer(stopped)), AfterStop(sys, stopped));
    }
    hide AfterStop;
  }

  lemma DropNeedsRows(sys: System, s: SourceId, externalId: string)
    requires s in sys.sources
    ensures (exists next :: Next(sys, OfOperator(DropQueued(s)), next)) <==> CanDropQueued(sys, s)
    ensures (exists next :: Next(sys, OfOperator(Rotate(s, externalId)), next)) <==> s !in sys.sourceLock && CanDropQueued(sys, s)
    ensures CanDropQueued(sys, s) <==>
            forall id :: id in sys.jobs && sys.jobs[id].status == Queued && sys.jobs[id].source == Some(s) ==> id !in sys.jobLock
  {
    if CanDropQueued(sys, s) {
      assert Next(sys, OfOperator(DropQueued(s)), AfterDropQueued(sys, s));
    }
    if CanRotate(sys, s) {
      assert Next(sys, OfOperator(Rotate(s, externalId)), AfterRotate(sys, s, externalId));
    }
    hide AfterDropQueued, AfterRotate;
  }

  // --- Pulls, forms and checks -----------------------------------------------------------------------

  /** A pull widens the queued job it finds, renews its version and gives the source back. */
  lemma PullWidens(sys: System, tx: nat, s: SourceId, id: JobId, monthsBack: nat) returns (next: System)
    requires tx !in sys.pulls && s in sys.sources && Free(sys.sourceLock, s) && Free(sys.jobLock, id)
    requires id in sys.jobs && sys.jobs[id].status == Queued && sys.jobs[id].source == Some(s)
    requires sys.jobs[id].version.None? || sys.jobs[id].version == Some(sys.sources[s].conn.version)
    ensures Leads(sys, next) && id in next.jobs && next.jobs == sys.jobs[id := next.jobs[id]]
    ensures next.jobs[id] == sys.jobs[id].(monthsBack := monthsBack, version := Some(sys.sources[s].conn.version))
    ensures next.pulls == sys.pulls && Free(next.sourceLock, s) && next.sources == sys.sources
  {
    hide Leads;
    Stay(sys);
    var s1 := AfterBeginPull(sys, tx, s);
    ByQueue(sys, sys, BeginPull(tx, s), s1);
    var s2 := AfterChooseJob(s1, tx, id);
    ByQueue(sys, s1, ChooseJob(tx, id), s2);
    next := AfterWritePull(s2, tx, monthsBack);
    ByQueue(sys, s2, WritePull(tx, monthsBack), next);
  }

  /** A form saved without anything in between changes the two fields it edits and raises the version
      exactly if one of them changed. */
  lemma FormSaves(sys: System, tx: nat, s: SourceId, roleArn: string, capabilities: set<string>) returns (next: System)
    requires tx !in sys.forms && s in sys.sources && Free(sys.sourceLock, s)
    ensures Leads(sys, next) && s in next.sources && next.sources == sys.sources[s := next.sources[s]] && next.forms == sys.forms
    ensures
      var before, after := sys.sources[s], next.sources[s];
      var changed := roleArn != before.conn.roleArn || capabilities != before.conn.capabilities;
      && after == before.(conn := after.conn)
      && after.conn == before.conn.(roleArn := roleArn, capabilities := capabilities, version := after.conn.version)
      && after.conn.version == before.conn.version + if changed then 1 else 0
  {
    hide Leads;
    Stay(sys);
    var s1 := AfterOpenForm(sys, tx, s);
    ByOperator(sys, sys, OpenForm(tx, s), s1);
    var s2 := AfterCompareForm(s1, tx, roleArn, capabilities);
    ByOperator(sys, s1, CompareForm(tx, roleArn, capabilities), s2);
    next := AfterSaveForm(s2, tx);
    ByOperator(sys, s2, SaveForm(tx), next);
  }

  /** A check of an enabled source is recorded with its version. */
  lemma CheckRecords(sys: System, tx: nat, s: SourceId) returns (next: System)
    requires s in sys.sources && sys.sources[s].enabled && sys.sources[s].customerActive && Free(sys.sourceLock, s)
    ensures Leads(sys, next) && next.evidence == sys.evidence + [Evidence(s, sys.sources[s].conn.version)]
    ensures next == sys.(evidence := next.evidence, checks := next.checks)
  {
    hide Leads;
    Stay(sys);
    var s1 := AfterLoadForCheck(sys, tx, s);
    ByCollector(sys, sys, LoadForCheck(tx, s), s1);
    next := AfterCommitCheck(s1, tx);
    ByCollector(sys, s1, CommitCheck(tx), next);
  }
}
