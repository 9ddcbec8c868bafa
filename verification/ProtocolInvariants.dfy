/** Inductive invariants of the collection protocol, each kept by every step. */
module ProtocolInvariants {
  import opened Options
  import opened JobTable
  import opened Calendar
  import opened Protocol

  // --- Reading the log ---------------------------------------------------------------------

  /** The rows of the last publication of a source's month. */
  ghost function Latest(pubs: seq<Publication>, s: SourceId, m: Month): set<CostRow> {
    if pubs == [] then {}
    else
      var p := pubs[|pubs| - 1];
      if p.source == s && p.month == m then set r | r in p.batch
      else Latest(pubs[..|pubs| - 1], s, m)
  }

  /** How often a source's month was published. */
  ghost function Publications(pubs: seq<Publication>, s: SourceId, m: Month): nat {
    if pubs == [] then 0
    else
      var p := pubs[|pubs| - 1];
      Publications(pubs[..|pubs| - 1], s, m) + if p.source == s && p.month == m then 1 else 0
  }

  /** How often a job was leased. */
  ghost function Leases(leases: seq<LeaseRecord>, id: JobId): nat {
    if leases == [] then 0
    else Leases(leases[..|leases| - 1], id) + if leases[|leases| - 1].epoch.job == id then 1 else 0
  }

  /** Some publication of the source's month was made under a lease of the job. */
  ghost predicate Published(pubs: seq<Publication>, id: JobId, s: SourceId, m: Month) {
    exists p :: p in pubs && p.epoch.job == id && p.source == s && p.month == m
  }

  // --- The invariants ------------------------------------------------------------------------

  ghost predicate TableInv(sys: System) {
    && Bounded(sys.jobs)
    && KeysUnique(sys.jobs)
    && OneLeasePerSource(sys.jobs)
    && forall id :: id in sys.jobs ==> id < sys.nextJob
  }

  /** A claim keeps its candidate row queued and, past the recheck, its source free of leases. */
  ghost predicate ClaimHolds(sys: System, tx: nat, c: Claim) {
    !c.Scanning? ==>
      && c.job in sys.jobs && sys.jobs[c.job].status == Queued
      && c.job in sys.jobLock && sys.jobLock[c.job] == ByClaim(tx)
      && (!c.RowHeld? ==>
            && sys.jobs[c.job].source.Some?
            && sys.jobs[c.job].source.value in sys.sourceLock
            && sys.sourceLock[sys.jobs[c.job].source.value] == ByClaim(tx))
      && (c.Cleared? ==> !SourceLeased(sys.jobs, sys.jobs[c.job].source.value))
  }

  ghost predicate ClaimInv(sys: System) {
    forall tx :: tx in sys.claims ==> ClaimHolds(sys, tx, sys.claims[tx])
  }

  /** A thread's copies agree with the log and with the row of its job. */
  ghost predicate CopyHolds(sys: System, e: Epoch, h: Handle) {
    && e.job < sys.nextJob && e.attempts >= 1
    && h.ticket < |sys.leases| && sys.leases[h.ticket] == LeaseRecord(e, h.source)
    && (e.job in sys.jobs ==>
          && e.attempts <= sys.jobs[e.job].attempts
          && sys.jobs[e.job].source == h.source
          && sys.jobs[e.job].maxAttempts == h.maxAttempts
          && (sys.jobs[e.job].status == Leased && sys.jobs[e.job].attempts == e.attempts ==>
                sys.jobs[e.job].monthsBack == h.monthsBack && sys.jobs[e.job].version == h.version))
    && (!h.phase.Idle? ==>
          && h.source.Some? && h.loaded.Some?
          && BatchOf(h.loaded.value, h.source.value, h.phase.month, h.phase.batch))
  }

  ghost predicate CopyInv(sys: System) {
    forall e :: e in sys.handles ==> CopyHolds(sys, e, sys.handles[e])
  }

  ghost predicate AccountsHeld(sys: System, e: Epoch, accounts: set<AccountId>) {
    forall a :: a in accounts ==> a in sys.accountLock && sys.accountLock[a] == ByWorker(e)
  }

  /** What a publication transaction has locked and checked stays as it was checked. */
  ghost predicate PublicationHolds(sys: System, e: Epoch, h: Handle) {
    && (!h.phase.Idle? && !h.phase.PeriodRead? ==>
          && e.job in sys.jobLock && sys.jobLock[e.job] == ByWorker(e)
          && Current(sys.jobs, CopyOf(e, h)))
    && (h.phase.AccountsPending? || h.phase.Checked? ==>
          && h.source.Some? && h.loaded.Some?
          && h.source.value in sys.sourceLock && sys.sourceLock[h.source.value] == ByWorker(e)
          && h.source.value in sys.sources
          && sys.sources[h.source.value].enabled
          && sys.sources[h.source.value].conn == h.loaded.value)
    && (h.phase.AccountsPending? ==> AccountsHeld(sys, e, Accounts(h.phase.batch) - h.phase.todo))
    && (h.phase.Checked? ==>
          && AccountsHeld(sys, e, Accounts(h.phase.batch))
          && !Overlaps(sys.costs, h.source.value, h.phase.batch))
  }

  ghost predicate PublicationInv(sys: System) {
    forall e :: e in sys.handles ==> PublicationHolds(sys, e, sys.handles[e])
  }

  /** A leased row belongs to the thread of its epoch, the latest lease of its source. */
  ghost predicate LeaseHolds(sys: System, id: JobId)
    requires id in sys.jobs
  {
    var e := Epoch(id, sys.jobs[id].attempts);
    && e in sys.handles
    && (sys.jobs[id].source.Some? ==>
          forall k :: sys.handles[e].ticket < k < |sys.leases| ==> sys.leases[k].source != sys.jobs[id].source)
  }

  ghost predicate LeaseInv(sys: System) {
    forall id :: id in sys.jobs && sys.jobs[id].status == Leased ==> LeaseHolds(sys, id)
  }

  /** While its epoch is current, the revision a thread read is still the stored one. */
  ghost predicate RevisionHolds(sys: System, e: Epoch, h: Handle) {
    && !h.phase.Idle? && h.source.Some?
    && e.job in sys.jobs && sys.jobs[e.job].status == Leased && sys.jobs[e.job].attempts == e.attempts
    ==> && (h.source.value, h.phase.month) in sys.periods
        && sys.periods[(h.source.value, h.phase.month)].revision == h.phase.revision
  }

  ghost predicate RevisionInv(sys: System) {
    forall e :: e in sys.handles ==> RevisionHolds(sys, e, sys.handles[e])
  }

  /** Each publication names a lease of its source, and lease order is publication order. */
  ghost predicate LogInv(sys: System) {
    && (forall i :: 0 <= i < |sys.pubs| ==>
          && sys.pubs[i].ticket < |sys.leases|
          && sys.leases[sys.pubs[i].ticket] == LeaseRecord(sys.pubs[i].epoch, Some(sys.pubs[i].source))
          && (forall r :: r in sys.pubs[i].batch ==> InMonth(r, sys.pubs[i].source, sys.pubs[i].month)))
    && (forall i, j :: 0 <= i < j < |sys.pubs| && sys.pubs[i].source == sys.pubs[j].source
          ==> sys.pubs[i].ticket <= sys.pubs[j].ticket)
  }

  ghost predicate CountInv(sys: System) {
    && (forall k :: 0 <= k < |sys.leases| ==> sys.leases[k].epoch.job < sys.nextJob)
    && (forall id :: id in sys.jobs ==> Leases(sys.leases, id) == sys.jobs[id].attempts)
  }

  ghost predicate CostInv(sys: System) {
    forall r :: r in sys.costs <==> r in Latest(sys.pubs, r.source, r.day.month)
  }

  ghost predicate PeriodInv(sys: System) {
    forall s: SourceId, m: Month ::
      if (s, m) in sys.periods then
        && sys.periods[(s, m)].revision == Publications(sys.pubs, s, m)
        && sys.periods[(s, m)].rows == |Latest(sys.pubs, s, m)|
      else Publications(sys.pubs, s, m) == 0
  }

  ghost predicate OneSourceInv(sys: System) {
    forall a, b :: a in sys.costs && b in sys.costs && a.account == b.account && a.day == b.day
      ==> a.source == b.source
  }

  ghost predicate ProgressInv(sys: System) {
    && (forall id, m :: id in sys.jobs && m in sys.jobs[id].completed ==>
          sys.jobs[id].source.Some? && Published(sys.pubs, id, sys.jobs[id].source.value, m))
    && (forall e, m :: e in sys.handles && m in sys.handles[e].completed ==>
          sys.handles[e].source.Some? && Published(sys.pubs, e.job, sys.handles[e].source.value, m))
    && (forall i, m :: 0 <= i < |sys.collected| && m in sys.collected[i].months
          ==> Published(sys.pubs, sys.collected[i].epoch.job, sys.collected[i].source, m))
  }

  /** A pull holds the row of its source; the job it chose is still queued unless it is gone. */
  ghost predicate PullHolds(sys: System, tx: nat, p: Pull) {
    && p.source in sys.sourceLock && sys.sourceLock[p.source] == ByPull(tx)
    && (p.Chosen? ==>
          && p.job < sys.nextJob
          && (p.job in sys.jobs ==> sys.jobs[p.job].status == Queued && sys.jobs[p.job].source == Some(p.source)))
  }

  ghost predicate PullInv(sys: System) {
    forall tx :: tx in sys.pulls ==> PullHolds(sys, tx, sys.pulls[tx])
  }

  /** Who may do what: queue rows, locks and the threads' copies. */
  ghost predicate ControlInv(sys: System) {
    && TableInv(sys) && ClaimInv(sys) && CopyInv(sys) && PublicationInv(sys) && LeaseInv(sys) && RevisionInv(sys)
  }

  /** What was published: the log, the cost table and the periods. */
  ghost predicate DataInv(sys: System) {
    && LogInv(sys) && CountInv(sys) && CostInv(sys) && PeriodInv(sys) && OneSourceInv(sys) && ProgressInv(sys)
  }

  ghost predicate Inv(sys: System) {
    ControlInv(sys) && DataInv(sys)
  }

  /** What one step may do to rows and threads: rows follow `RowStep`, only queued rows are
      deleted, identifiers are never reused, no thread is forgotten. */
  ghost predicate Evolves(sys: System, next: System) {
    && (forall id :: id in sys.jobs && id in next.jobs ==> RowStep(sys.jobs[id], next.jobs[id]))
    && (forall id :: id in sys.jobs && id !in next.jobs ==> sys.jobs[id].status == Queued)
    && (forall id :: id in next.jobs && id !in sys.jobs ==> id >= sys.nextJob && next.jobs[id].status == Queued)
    && sys.nextJob <= next.nextJob
    && (forall e :: e in sys.handles ==> e in next.handles)
  }

  lemma InitialInv(sys: System)
    requires Initial(sys)
    ensures Inv(sys)
  {
  }

  // --- Steps that only touch the job table or the sources -----------------------------------

  /** Unlocked rows are rewritten or deleted, and nothing is leased. */
  ghost predicate JobsStep(sys: System, jobs: Jobs) {
    && (forall id :: id in jobs ==>
          && id in sys.jobs && RowStep(sys.jobs[id], jobs[id])
          && (jobs[id].Active() ==> sys.jobs[id].Active())
          && (jobs[id].status == Leased ==> sys.jobs[id].status == Leased)
          && (jobs[id].status == Queued && sys.jobs[id].status == Leased ==> jobs[id].attempts < jobs[id].maxAttempts))
    && (forall id :: id in sys.jobs && id !in jobs ==> sys.jobs[id].status == Queued)
    && (forall id :: id in sys.jobs && id in sys.jobLock ==> id in jobs && jobs[id] == sys.jobs[id])
  }

  ghost predicate ProgressStep(sys: System, jobs: Jobs) {
    forall id, m :: id in jobs && m in jobs[id].completed ==>
      jobs[id].source.Some? && Published(sys.pubs, id, jobs[id].source.value, m)
  }

  lemma JobsStepTables(sys: System, jobs: Jobs)
    requires ControlInv(sys) && JobsStep(sys, jobs)
    ensures TableInv(sys.(jobs := jobs)) && LeaseInv(sys.(jobs := jobs))
  {
    hide CopyInv, PublicationInv, RevisionInv, ClaimInv;
  }

  lemma JobsStepClaims(sys: System, jobs: Jobs)
    requires ControlInv(sys) && JobsStep(sys, jobs)
    ensures ClaimInv(sys.(jobs := jobs))
  {
    hide CopyInv, PublicationInv, RevisionInv, LeaseInv, TableInv;
  }

  lemma JobsStepCopies(sys: System, jobs: Jobs)
    requires ControlInv(sys) && JobsStep(sys, jobs)
    ensures CopyInv(sys.(jobs := jobs)) && RevisionInv(sys.(jobs := jobs))
  {
    hide TableInv, LeaseInv, ClaimInv, PublicationInv;
  }

  lemma JobsStepPublications(sys: System, jobs: Jobs)
    requires ControlInv(sys) && JobsStep(sys, jobs)
    ensures PublicationInv(sys.(jobs := jobs))
  {
    hide TableInv, LeaseInv, ClaimInv, CopyInv, RevisionInv;
  }

  lemma JobsStepKept(sys: System, next: System)
    requires Inv(sys) && JobsStep(sys, next.jobs) && ProgressStep(sys, next.jobs)
    requires next == sys.(jobs := next.jobs)
    ensures Inv(next) && Evolves(sys, next)
  {
    JobsStepData(sys, next.jobs);
    JobsStepTables(sys, next.jobs);
    JobsStepClaims(sys, next.jobs);
    JobsStepCopies(sys, next.jobs);
    JobsStepPublications(sys, next.jobs);
    assert TableInv(sys);
    JobsStepEvolves(sys, next.jobs);
    hide TableInv, ClaimInv, CopyInv, PublicationInv, LeaseInv, RevisionInv, DataInv, Evolves, JobsStep, ProgressStep;
  }

  lemma JobsStepData(sys: System, jobs: Jobs)
    requires DataInv(sys) && JobsStep(sys, jobs) && ProgressStep(sys, jobs)
    ensures DataInv(sys.(jobs := jobs))
  {
    assert CountInv(sys.(jobs := jobs)) by {
      hide LogInv, CostInv, PeriodInv, OneSourceInv, ProgressInv, ProgressStep;
    }
    assert ProgressInv(sys.(jobs := jobs)) by {
      hide LogInv, CostInv, PeriodInv, OneSourceInv, CountInv, Published, JobsStep;
    }
    hide JobsStep, ProgressStep, CountInv, ProgressInv;
  }

  lemma JobsStepEvolves(sys: System, jobs: Jobs)
    requires TableInv(sys) && JobsStep(sys, jobs)
    ensures Evolves(sys, sys.(jobs := jobs))
  {
  }

  /** Connection fields and the enabled flag change only on unlocked sources. */
  ghost predicate SourcesStep(sys: System, sources: map<SourceId, Source>) {
    forall s :: s in sys.sources ==>
      && s in sources
      && (s in sys.sourceLock ==>
            sources[s].enabled == sys.sources[s].enabled && sources[s].conn == sys.sources[s].conn)
  }

  lemma SourcesStepPublication(sys: System, next: System)
    requires PublicationInv(sys) && SourcesStep(sys, next.sources)
    requires next == sys.(sources := next.sources)
    ensures PublicationInv(next)
  {
  }

  lemma SourcesStepRest(sys: System, next: System)
    requires ControlInv(sys) && next == sys.(sources := next.sources)
    ensures TableInv(next) && ClaimInv(next) && CopyInv(next) && LeaseInv(next) && RevisionInv(next)
  {
    hide PublicationInv;
  }

  lemma SourcesStepData(sys: System, next: System)
    requires DataInv(sys) && next == sys.(sources := next.sources)
    ensures DataInv(next)
  {
  }

  lemma SourcesStepKept(sys: System, next: System)
    requires Inv(sys) && SourcesStep(sys, next.sources)
    requires next == sys.(sources := next.sources)
    ensures Inv(next) && Evolves(sys, next)
  {
    SourcesStepPublication(sys, next);
    SourcesStepRest(sys, next);
    SourcesStepData(sys, next);
    assert TableInv(sys);
    hide TableInv, ClaimInv, CopyInv, PublicationInv, LeaseInv, RevisionInv, DataInv, SourcesStep;
  }

  /** Every month the row lists was published. */
  ghost predicate Backed(sys: System, id: JobId, row: Job) {
    forall m :: m in row.completed ==> row.source.Some? && Published(sys.pubs, id, row.source.value, m)
  }

  lemma RowBacked(sys: System, id: JobId)
    requires ProgressInv(sys) && id in sys.jobs
    ensures Backed(sys, id, sys.jobs[id])
  {
    hide Published;
  }

  lemma WorkerBacked(sys: System, e: Epoch, row: Job)
    requires ProgressInv(sys) && e in sys.handles && row.source == sys.handles[e].source && row.completed == sys.handles[e].completed
    ensures Backed(sys, e.job, row)
  {
    hide Published;
  }

  /** A row that is rewritten and neither activated nor leased; a lease given up leaves attempts. */
  ghost predicate Rewritten(a: Job, b: Job) {
    && RowStep(a, b) && (b.Active() ==> a.Active()) && (b.status == Leased ==> a.status == Leased)
    && (b.status == Queued && a.status == Leased ==> b.attempts < b.maxAttempts)
  }

  /** One unlocked row is rewritten. */
  lemma OneRow(sys: System, id: JobId, row: Job)
    requires ProgressInv(sys) && Backed(sys, id, row)
    requires id in sys.jobs && id !in sys.jobLock && Rewritten(sys.jobs[id], row)
    ensures JobsStep(sys, sys.jobs[id := row]) && ProgressStep(sys, sys.jobs[id := row])
  {
    hide Published;
  }

  lemma NoRow(sys: System)
    requires ProgressInv(sys)
    ensures JobsStep(sys, sys.jobs) && ProgressStep(sys, sys.jobs)
  {
    hide Published;
  }

  lemma PulledForward(j: Job, runAfter: Time, priority: nat)
    requires j.status == Queued
    ensures
      var k := Sooner(j, runAfter, priority);
      Rewritten(j, k) && k.completed == j.completed && k.source == j.source
  {
  }

  lemma CoalesceRows(sys: System, id: JobId, runAfter: Time, priority: nat)
    requires ProgressInv(sys) && CanCoalesce(sys, id)
    ensures JobsStep(sys, AfterCoalesce(sys, id, runAfter, priority).jobs) && ProgressStep(sys, AfterCoalesce(sys, id, runAfter, priority).jobs)
  {
    hide JobsStep, ProgressStep, ProgressInv, Backed, Rewritten, Sooner;
    var j := sys.jobs[id];
    PulledForward(j, runAfter, priority);
    RowBacked(sys, id);
    SameBacked(sys, id, j, Sooner(j, runAfter, priority));
    OneRow(sys, id, Sooner(j, runAfter, priority));
  }

  lemma CoalesceKept(sys: System, id: JobId, runAfter: Time, priority: nat)
    requires Inv(sys) && CanCoalesce(sys, id)
    ensures Inv(AfterCoalesce(sys, id, runAfter, priority)) && Evolves(sys, AfterCoalesce(sys, id, runAfter, priority))
  {
    CoalesceRows(sys, id, runAfter, priority);
    hide Inv, Evolves, JobsStep, ProgressStep;
    JobsStepKept(sys, AfterCoalesce(sys, id, runAfter, priority));
  }

  /** The job is still queued when the payload is written. */
  lemma WritePullRows(sys: System, tx: nat, monthsBack: nat)
    requires ProgressInv(sys) && PullInv(sys) && CanWritePull(sys, tx)
    ensures JobsStep(sys, AfterWritePull(sys, tx, monthsBack).jobs) && ProgressStep(sys, AfterWritePull(sys, tx, monthsBack).jobs)
  {
    assert PullHolds(sys, tx, sys.pulls[tx]);
    var id := sys.pulls[tx].job;
    hide JobsStep, ProgressStep, PullInv, Published;
    if id in sys.jobs {
      RowBacked(sys, id);
      hide ProgressInv;
      OneRow(sys, id, AfterWritePull(sys, tx, monthsBack).jobs[id]);
    } else {
      NoRow(sys);
    }
  }

  lemma WritePullKept(sys: System, tx: nat, monthsBack: nat)
    requires Inv(sys) && PullInv(sys) && CanWritePull(sys, tx)
    ensures Inv(AfterWritePull(sys, tx, monthsBack)) && Evolves(sys, AfterWritePull(sys, tx, monthsBack))
  {
    hide JobsStep, ProgressStep, PullInv, TableInv, ClaimInv, CopyInv, PublicationInv, LeaseInv, RevisionInv,
      LogInv, CountInv, CostInv, PeriodInv, OneSourceInv, ProgressInv, Release;
    WritePullRows(sys, tx, monthsBack);
    var middle := sys.(jobs := AfterWritePull(sys, tx, monthsBack).jobs);
    JobsStepKept(sys, middle);
    assert AfterWritePull(sys, tx, monthsBack) == AfterEndPull(middle, tx);
    EndPullKept(middle, tx);
  }

  lemma BeginPullKept(sys: System, tx: nat, s: SourceId)
    requires Inv(sys) && CanBeginPull(sys, tx, s)
    ensures Inv(AfterBeginPull(sys, tx, s)) && Evolves(sys, AfterBeginPull(sys, tx, s))
  {
    hide TableInv, CopyInv, LeaseInv, RevisionInv, DataInv;
    ClaimStepRest(sys, AfterBeginPull(sys, tx, s));
  }

  lemma ChooseJobKept(sys: System, tx: nat, id: JobId)
    requires Inv(sys) && CanChooseJob(sys, tx, id)
    ensures Inv(AfterChooseJob(sys, tx, id)) && Evolves(sys, AfterChooseJob(sys, tx, id))
  {
    hide Inv, Evolves;
    CheckStepKept(sys, AfterChooseJob(sys, tx, id));
  }

  lemma EndPullKept(sys: System, tx: nat)
    requires Inv(sys)
    ensures Inv(AfterEndPull(sys, tx)) && Evolves(sys, AfterEndPull(sys, tx))
  {
    hide TableInv, CopyInv, LeaseInv, RevisionInv, DataInv;
    ClaimStepRest(sys, AfterEndPull(sys, tx));
  }

  /** The statements of one leased job, whether its epoch is still current or not. */
  /** What the statements of a worker do to its row, if they do anything. */
  lemma RenewedRow(sys: System, e: Epoch, save: bool)
    requires CanIssue(sys, e)
    ensures Live(sys.jobs, CopyOf(e, sys.handles[e]), sys.now) ==>
              var jobs := AfterRenew(sys, e, save).jobs;
              && jobs == sys.jobs[e.job := jobs[e.job]] && Rewritten(sys.jobs[e.job], jobs[e.job])
              && jobs[e.job].source == sys.jobs[e.job].source
              && jobs[e.job].completed == if save then sys.handles[e].completed else sys.jobs[e.job].completed
    ensures !Live(sys.jobs, CopyOf(e, sys.handles[e]), sys.now) ==> AfterRenew(sys, e, save).jobs == sys.jobs
  {
  }

  lemma CompletedRow(sys: System, e: Epoch)
    requires CanIssue(sys, e)
    ensures Current(sys.jobs, CopyOf(e, sys.handles[e])) ==>
              var jobs := AfterComplete(sys, e).jobs;
              && jobs == sys.jobs[e.job := jobs[e.job]] && Rewritten(sys.jobs[e.job], jobs[e.job])
              && jobs[e.job].source == sys.jobs[e.job].source && jobs[e.job].completed == sys.handles[e].completed
    ensures !Current(sys.jobs, CopyOf(e, sys.handles[e])) ==> AfterComplete(sys, e).jobs == sys.jobs
  {
  }

  lemma FailedRow(sys: System, e: Epoch, permanent: bool, delay: int)
    requires CanIssue(sys, e) && (e.job in sys.jobs ==> sys.jobs[e.job].maxAttempts == sys.handles[e].maxAttempts)
    ensures Current(sys.jobs, CopyOf(e, sys.handles[e])) ==>
              var jobs := AfterFail(sys, e, permanent, delay).jobs;
              && jobs == sys.jobs[e.job := jobs[e.job]] && Rewritten(sys.jobs[e.job], jobs[e.job])
              && jobs[e.job].source == sys.jobs[e.job].source && jobs[e.job].completed == sys.handles[e].completed
    ensures !Current(sys.jobs, CopyOf(e, sys.handles[e])) ==> AfterFail(sys, e, permanent, delay).jobs == sys.jobs
  {
  }

  lemma RenewRows(sys: System, e: Epoch, save: bool)
    requires ProgressInv(sys) && CanIssue(sys, e) && CopyHolds(sys, e, sys.handles[e])
    ensures JobsStep(sys, AfterRenew(sys, e, save).jobs) && ProgressStep(sys, AfterRenew(sys, e, save).jobs)
  {
    hide JobsStep, ProgressStep, ProgressInv, Backed, Rewritten, AfterRenew;
    RenewedRow(sys, e, save);
    if Live(sys.jobs, CopyOf(e, sys.handles[e]), sys.now) {
      var row := AfterRenew(sys, e, save).jobs[e.job];
      if save {
        WorkerBacked(sys, e, row);
      } else {
        RowBacked(sys, e.job);
        SameBacked(sys, e.job, sys.jobs[e.job], row);
      }
      OneRow(sys, e.job, row);
    } else {
      NoRow(sys);
    }
  }

  lemma SameBacked(sys: System, id: JobId, a: Job, b: Job)
    requires Backed(sys, id, a) && b.completed == a.completed && b.source == a.source
    ensures Backed(sys, id, b)
  {
  }

  lemma RenewKept(sys: System, e: Epoch, save: bool)
    requires Inv(sys) && CanIssue(sys, e)
    ensures Inv(AfterRenew(sys, e, save)) && Evolves(sys, AfterRenew(sys, e, save))
  {
    assert CopyHolds(sys, e, sys.handles[e]);
    RenewRows(sys, e, save);
    hide Inv, Evolves, JobsStep, ProgressStep;
    JobsStepKept(sys, AfterRenew(sys, e, save));
  }

  lemma CompleteRows(sys: System, e: Epoch)
    requires ProgressInv(sys) && CanIssue(sys, e) && CopyHolds(sys, e, sys.handles[e])
    ensures JobsStep(sys, AfterComplete(sys, e).jobs) && ProgressStep(sys, AfterComplete(sys, e).jobs)
  {
    hide JobsStep, ProgressStep, ProgressInv, Backed, Rewritten, AfterComplete;
    CompletedRow(sys, e);
    if Current(sys.jobs, CopyOf(e, sys.handles[e])) {
      var row := AfterComplete(sys, e).jobs[e.job];
      WorkerBacked(sys, e, row);
      OneRow(sys, e.job, row);
    } else {
      NoRow(sys);
    }
  }

  lemma CompleteKept(sys: System, e: Epoch)
    requires Inv(sys) && CanIssue(sys, e)
    ensures Inv(AfterComplete(sys, e)) && Evolves(sys, AfterComplete(sys, e))
  {
    assert CopyHolds(sys, e, sys.handles[e]);
    CompleteRows(sys, e);
    hide Inv, Evolves, JobsStep, ProgressStep;
    JobsStepKept(sys, AfterComplete(sys, e));
  }

  lemma FailRows(sys: System, e: Epoch, permanent: bool, delay: int)
    requires ProgressInv(sys) && CanIssue(sys, e) && CopyHolds(sys, e, sys.handles[e])
    ensures JobsStep(sys, AfterFail(sys, e, permanent, delay).jobs) && ProgressStep(sys, AfterFail(sys, e, permanent, delay).jobs)
  {
    hide JobsStep, ProgressStep, ProgressInv, Backed, Rewritten, AfterFail;
    FailedRow(sys, e, permanent, delay);
    if Current(sys.jobs, CopyOf(e, sys.handles[e])) {
      var row := AfterFail(sys, e, permanent, delay).jobs[e.job];
      WorkerBacked(sys, e, row);
      OneRow(sys, e.job, row);
    } else {
      NoRow(sys);
    }
  }

  lemma FailKept(sys: System, e: Epoch, permanent: bool, delay: int)
    requires Inv(sys) && CanIssue(sys, e)
    ensures Inv(AfterFail(sys, e, permanent, delay)) && Evolves(sys, AfterFail(sys, e, permanent, delay))
  {
    assert CopyHolds(sys, e, sys.handles[e]);
    FailRows(sys, e, permanent, delay);
    hide Inv, Evolves, JobsStep, ProgressStep;
    JobsStepKept(sys, AfterFail(sys, e, permanent, delay));
  }

  lemma RecoverRows(sys: System, id: JobId, seen: Job, delay: int)
    requires TableInv(sys) && ProgressInv(sys) && CanRecover(sys, id, seen, delay)
    ensures JobsStep(sys, AfterRecover(sys, id, seen, delay).jobs) && ProgressStep(sys, AfterRecover(sys, id, seen, delay).jobs)
  {
    hide JobsStep, ProgressStep, ProgressInv, Backed, Delay;
    if Recoverable(sys.jobs, id, seen, sys.now) {
      var row := AfterRecover(sys, id, seen, delay).jobs[id];
      RowBacked(sys, id);
      SameBacked(sys, id, sys.jobs[id], row);
      OneRow(sys, id, row);
    } else {
      NoRow(sys);
    }
  }

  lemma RecoverKept(sys: System, id: JobId, seen: Job, delay: int)
    requires Inv(sys) && CanRecover(sys, id, seen, delay)
    ensures Inv(AfterRecover(sys, id, seen, delay)) && Evolves(sys, AfterRecover(sys, id, seen, delay))
  {
    RecoverRows(sys, id, seen, delay);
    hide Inv, Evolves, JobsStep, ProgressStep, Recover, CanRecover;
    JobsStepKept(sys, AfterRecover(sys, id, seen, delay));
  }

  lemma DropQueuedKept(sys: System, s: SourceId)
    requires Inv(sys) && CanDropQueued(sys, s)
    ensures Inv(AfterDropQueued(sys, s)) && Evolves(sys, AfterDropQueued(sys, s))
  {
    hide ControlInv, LogInv, CountInv, CostInv, PeriodInv, OneSourceInv;
    JobsStepKept(sys, AfterDropQueued(sys, s));
  }

  lemma StoppedRow(j: Job)
    requires j.Active()
    ensures Rewritten(j, j.(status := Failed)) && Rewritten(j, j)
  {
  }

  lemma StoppedRows(sys: System, stopped: set<SourceId>)
    requires CanStop(sys, stopped)
    ensures JobsStep(sys, AfterStop(sys, stopped).jobs)
  {
    var jobs := AfterStop(sys, stopped).jobs;
    forall id | id in jobs
      ensures id in sys.jobs && Rewritten(sys.jobs[id], jobs[id])
    {
      if InScope(sys.jobs[id], stopped) {
        StoppedRow(sys.jobs[id]);
      }
    }
  }

  lemma StopJobs(sys: System, stopped: set<SourceId>)
    requires ProgressInv(sys) && CanStop(sys, stopped)
    ensures JobsStep(sys, AfterStop(sys, stopped).jobs) && ProgressStep(sys, AfterStop(sys, stopped).jobs)
  {
    StoppedRows(sys, stopped);
    hide JobsStep, CanStop, Published;
  }

  lemma StopKept(sys: System, stopped: set<SourceId>)
    requires Inv(sys) && CanStop(sys, stopped)
    ensures Inv(AfterStop(sys, stopped)) && Evolves(sys, AfterStop(sys, stopped))
  {
    hide JobsStep, ProgressStep, ControlInv, TableInv, ClaimInv, CopyInv, PublicationInv, LeaseInv, RevisionInv,
      LogInv, CountInv, CostInv, PeriodInv, OneSourceInv, ProgressInv;
    StopJobs(sys, stopped);
    var next := AfterStop(sys, stopped);
    JobsStepKept(sys, sys.(jobs := next.jobs));
    SourcesStepKept(sys.(jobs := next.jobs), next);
  }

  lemma RotateKept(sys: System, s: SourceId, externalId: string)
    requires Inv(sys) && CanRotate(sys, s)
    ensures Inv(AfterRotate(sys, s, externalId)) && Evolves(sys, AfterRotate(sys, s, externalId))
  {
    hide ControlInv, LogInv, CountInv, CostInv, PeriodInv, OneSourceInv;
    DropQueuedKept(sys, s);
    SourcesStepKept(AfterDropQueued(sys, s), AfterRotate(sys, s, externalId));
  }

  // --- Enqueue and lease ------------------------------------------------------------------------

  lemma {:induction false} LeasesOfUnknownJob(leases: seq<LeaseRecord>, id: JobId)
    requires forall k :: 0 <= k < |leases| ==> leases[k].epoch.job < id
    ensures Leases(leases, id) == 0
  {
    if leases != [] {
      LeasesOfUnknownJob(leases[..|leases| - 1], id);
    }
  }

  lemma EnqueueTables(sys: System, job: Job)
    requires TableInv(sys) && CanEnqueue(sys, job)
    ensures TableInv(AfterEnqueue(sys, job))
  {
  }

  lemma EnqueueClaims(sys: System, job: Job)
    requires TableInv(sys) && ClaimInv(sys) && LeaseInv(sys) && CanEnqueue(sys, job)
    ensures ClaimInv(AfterEnqueue(sys, job)) && LeaseInv(AfterEnqueue(sys, job))
  {
    hide KeysUnique, OneLeasePerSource, Bounded;
  }

  lemma EnqueueData(sys: System, job: Job)
    requires DataInv(sys) && CanEnqueue(sys, job)
    ensures DataInv(AfterEnqueue(sys, job))
  {
    LeasesOfUnknownJob(sys.leases, sys.nextJob);
  }

  lemma EnqueueCopies(sys: System, job: Job)
    requires ControlInv(sys) && CanEnqueue(sys, job)
    ensures CopyInv(AfterEnqueue(sys, job)) && PublicationInv(AfterEnqueue(sys, job)) && RevisionInv(AfterEnqueue(sys, job))
  {
    hide ClaimInv, LeaseInv;
  }

  lemma EnqueueKept(sys: System, job: Job)
    requires Inv(sys) && CanEnqueue(sys, job)
    ensures Inv(AfterEnqueue(sys, job)) && Evolves(sys, AfterEnqueue(sys, job))
  {
    EnqueueTables(sys, job);
    EnqueueClaims(sys, job);
    EnqueueData(sys, job);
    EnqueueCopies(sys, job);
    assert TableInv(sys);
    hide ClaimInv, CopyInv, PublicationInv, RevisionInv, LeaseInv, DataInv;
  }

  /** Only `ClaimInv` and `PublicationInv` look at claims and locks. */
  lemma ClaimStepRest(sys: System, next: System)
    requires Inv(sys)
    requires next == sys.(claims := next.claims, pulls := next.pulls, jobLock := next.jobLock, sourceLock := next.sourceLock, now := next.now)
    ensures TableInv(next) && CopyInv(next) && LeaseInv(next) && RevisionInv(next) && DataInv(next)
    ensures Evolves(sys, next)
  {
    hide ClaimInv, PublicationInv;
  }

  lemma PickRowKept(sys: System, tx: nat, id: JobId)
    requires Inv(sys) && CanPickRow(sys, tx, id)
    ensures Inv(AfterPickRow(sys, tx, id)) && Evolves(sys, AfterPickRow(sys, tx, id))
  {
    hide TableInv, CopyInv, LeaseInv, RevisionInv, DataInv;
    ClaimStepRest(sys, AfterPickRow(sys, tx, id));
  }

  lemma TickKept(sys: System, time: Time)
    requires Inv(sys)
    ensures Inv(sys.(now := time)) && Evolves(sys, sys.(now := time))
  {
    hide TableInv, CopyInv, LeaseInv, RevisionInv, DataInv;
    ClaimStepRest(sys, sys.(now := time));
  }

  lemma BeginLeaseKept(sys: System, tx: nat, worker: string)
    requires Inv(sys)
    ensures Inv(AfterBeginLease(sys, tx, worker)) && Evolves(sys, AfterBeginLease(sys, tx, worker))
  {
    hide TableInv, CopyInv, LeaseInv, RevisionInv, DataInv;
    ClaimStepRest(sys, AfterBeginLease(sys, tx, worker));
  }

  lemma SkipRowKept(sys: System, tx: nat)
    requires Inv(sys) && CanSkipRow(sys, tx)
    ensures Inv(AfterSkipRow(sys, tx)) && Evolves(sys, AfterSkipRow(sys, tx))
  {
    hide TableInv, CopyInv, LeaseInv, RevisionInv, DataInv;
    ClaimStepRest(sys, AfterSkipRow(sys, tx));
  }

  lemma HoldSourceKept(sys: System, tx: nat)
    requires Inv(sys) && CanHoldSource(sys, tx)
    ensures Inv(AfterHoldSource(sys, tx)) && Evolves(sys, AfterHoldSource(sys, tx))
  {
    hide TableInv, CopyInv, LeaseInv, RevisionInv, DataInv;
    ClaimStepRest(sys, AfterHoldSource(sys, tx));
  }

  lemma RecheckKept(sys: System, tx: nat)
    requires Inv(sys) && CanRecheck(sys, tx)
    ensures Inv(AfterRecheck(sys, tx)) && Evolves(sys, AfterRecheck(sys, tx))
  {
    hide TableInv, CopyInv, LeaseInv, RevisionInv, DataInv;
    ClaimStepRest(sys, AfterRecheck(sys, tx));
  }

  lemma AbortLeaseKept(sys: System, tx: nat)
    requires Inv(sys)
    ensures Inv(AfterAbortLease(sys, tx)) && Evolves(sys, AfterAbortLease(sys, tx))
  {
    hide TableInv, CopyInv, LeaseInv, RevisionInv, DataInv;
    ClaimStepRest(sys, AfterAbortLease(sys, tx));
  }

  // --- Publication ------------------------------------------------------------------------------

  ghost predicate SameWork(p: Phase, q: Phase) {
    q.Idle? || (!p.Idle? && q.month == p.month && q.batch == p.batch && q.revision == p.revision)
  }

  /** A thread moves inside its transaction, or leaves it: only locks and phase change. */
  ghost predicate PhaseStep(sys: System, e: Epoch, next: System) {
    && e in sys.handles && e in next.handles
    && SameWork(sys.handles[e].phase, next.handles[e].phase)
    && next == sys.(handles := sys.handles[e := sys.handles[e].(phase := next.handles[e].phase)],
                    jobLock := next.jobLock, sourceLock := next.sourceLock, accountLock := next.accountLock)
  }

  lemma PhaseStepData(sys: System, e: Epoch, next: System)
    requires DataInv(sys) && PhaseStep(sys, e, next)
    ensures DataInv(next)
  {
  }

  lemma PhaseStepTables(sys: System, e: Epoch, next: System)
    requires ControlInv(sys) && PhaseStep(sys, e, next)
    ensures TableInv(next) && CopyInv(next) && Evolves(sys, next)
  {
    hide ClaimInv, PublicationInv, LeaseInv, RevisionInv;
  }

  lemma PhaseStepLeases(sys: System, e: Epoch, next: System)
    requires ControlInv(sys) && PhaseStep(sys, e, next)
    ensures LeaseInv(next) && RevisionInv(next)
  {
    hide ClaimInv, PublicationInv, TableInv, CopyInv;
  }

  lemma PhaseStepRest(sys: System, e: Epoch, next: System)
    requires Inv(sys) && PhaseStep(sys, e, next)
    ensures TableInv(next) && CopyInv(next) && LeaseInv(next) && RevisionInv(next) && DataInv(next)
    ensures Evolves(sys, next)
  {
    PhaseStepData(sys, e, next);
    PhaseStepTables(sys, e, next);
    PhaseStepLeases(sys, e, next);
    hide ControlInv, TableInv, CopyInv, LeaseInv, RevisionInv, DataInv, Evolves, PhaseStep;
  }

  lemma LoadSourceRest(sys: System, e: Epoch)
    requires Inv(sys) && CanLoadSource(sys, e)
    ensures TableInv(AfterLoadSource(sys, e)) && ClaimInv(AfterLoadSource(sys, e)) && DataInv(AfterLoadSource(sys, e))
  {
    hide CopyInv, PublicationInv, LeaseInv, RevisionInv;
  }

  lemma LoadSourceKept(sys: System, e: Epoch)
    requires Inv(sys) && CanLoadSource(sys, e)
    ensures Inv(AfterLoadSource(sys, e)) && Evolves(sys, AfterLoadSource(sys, e))
  {
    LoadSourceRest(sys, e);
    LoadSourceCopies(sys, e);
    LoadSourceLeases(sys, e);
    hide TableInv, ClaimInv, CopyInv, PublicationInv, LeaseInv, RevisionInv, DataInv;
  }

  lemma LoadSourceCopies(sys: System, e: Epoch)
    requires CopyInv(sys) && PublicationInv(sys) && CanLoadSource(sys, e)
    ensures CopyInv(AfterLoadSource(sys, e)) && PublicationInv(AfterLoadSource(sys, e))
  {
    assert CopyInv(AfterLoadSource(sys, e)) by {
      hide PublicationInv;
    }
    var next := AfterLoadSource(sys, e);
    forall other | other in next.handles
      ensures PublicationHolds(next, other, next.handles[other])
    {
      assert PublicationHolds(sys, other, sys.handles[other]);
      hide PublicationInv, CopyInv, Overlaps;
    }
    hide CopyInv;
  }

  lemma LoadSourceLeases(sys: System, e: Epoch)
    requires LeaseInv(sys) && RevisionInv(sys) && CanLoadSource(sys, e)
    ensures LeaseInv(AfterLoadSource(sys, e)) && RevisionInv(AfterLoadSource(sys, e))
  {
  }

  lemma ReadPeriodPeriods(sys: System, e: Epoch, month: Month, batch: seq<CostRow>)
    requires PeriodInv(sys) && CanReadPeriod(sys, e, month, batch)
    ensures PeriodInv(AfterReadPeriod(sys, e, month, batch))
  {
    var s := sys.handles[e].source.value;
    var next := AfterReadPeriod(sys, e, month, batch);
    assert next.pubs == sys.pubs && next.periods == if (s, month) in sys.periods then sys.periods else sys.periods[(s, month) := Period(0, 0)];
    hide CanReadPeriod, AfterReadPeriod, Latest, Publications;
    if (s, month) !in sys.periods {
      NeverPublished(sys.pubs, s, month);
    }
  }

  lemma ReadPeriodData(sys: System, e: Epoch, month: Month, batch: seq<CostRow>)
    requires DataInv(sys) && CanReadPeriod(sys, e, month, batch)
    ensures DataInv(AfterReadPeriod(sys, e, month, batch))
  {
    ReadPeriodPeriods(sys, e, month, batch);
    hide PeriodInv, Latest;
  }

  lemma ReadPeriodRevision(sys: System, e: Epoch, month: Month, batch: seq<CostRow>)
    requires RevisionInv(sys) && CanReadPeriod(sys, e, month, batch)
    ensures RevisionInv(AfterReadPeriod(sys, e, month, batch))
  {
  }

  lemma {:induction false} NeverPublished(pubs: seq<Publication>, s: SourceId, m: Month)
    requires Publications(pubs, s, m) == 0
    ensures Latest(pubs, s, m) == {}
  {
    if pubs != [] {
      NeverPublished(pubs[..|pubs| - 1], s, m);
    }
  }

  lemma ReadPeriodCopies(sys: System, e: Epoch, month: Month, batch: seq<CostRow>)
    requires ControlInv(sys) && CanReadPeriod(sys, e, month, batch)
    ensures CopyInv(AfterReadPeriod(sys, e, month, batch)) && PublicationInv(AfterReadPeriod(sys, e, month, batch))
  {
    hide TableInv, ClaimInv, LeaseInv, RevisionInv;
  }

  lemma ReadPeriodTables(sys: System, e: Epoch, month: Month, batch: seq<CostRow>)
    requires TableInv(sys) && ClaimInv(sys) && LeaseInv(sys) && CanReadPeriod(sys, e, month, batch)
    ensures TableInv(AfterReadPeriod(sys, e, month, batch)) && ClaimInv(AfterReadPeriod(sys, e, month, batch))
    ensures LeaseInv(AfterReadPeriod(sys, e, month, batch)) && Evolves(sys, AfterReadPeriod(sys, e, month, batch))
  {
  }

  lemma ReadPeriodKept(sys: System, e: Epoch, month: Month, batch: seq<CostRow>)
    requires Inv(sys) && CanReadPeriod(sys, e, month, batch)
    ensures Inv(AfterReadPeriod(sys, e, month, batch)) && Evolves(sys, AfterReadPeriod(sys, e, month, batch))
  {
    ReadPeriodTables(sys, e, month, batch);
    ReadPeriodData(sys, e, month, batch);
    ReadPeriodRevision(sys, e, month, batch);
    ReadPeriodCopies(sys, e, month, batch);
    hide DataInv, RevisionInv, CopyInv, PublicationInv, TableInv, ClaimInv, LeaseInv, Evolves;
  }

  lemma LockJobKept(sys: System, e: Epoch)
    requires Inv(sys) && CanLockJob(sys, e)
    ensures Inv(AfterLockJob(sys, e)) && Evolves(sys, AfterLockJob(sys, e))
  {
    hide TableInv, CopyInv, LeaseInv, RevisionInv, DataInv;
    PhaseStepRest(sys, e, AfterLockJob(sys, e));
  }

  lemma LockSourceKept(sys: System, e: Epoch)
    requires Inv(sys) && CanLockSource(sys, e)
    ensures Inv(AfterLockSource(sys, e)) && Evolves(sys, AfterLockSource(sys, e))
  {
    hide TableInv, CopyInv, LeaseInv, RevisionInv, DataInv;
    PhaseStepRest(sys, e, AfterLockSource(sys, e));
  }

  lemma LockAccountKept(sys: System, e: Epoch, account: AccountId)
    requires Inv(sys) && CanLockAccount(sys, e, account)
    ensures Inv(AfterLockAccount(sys, e, account)) && Evolves(sys, AfterLockAccount(sys, e, account))
  {
    hide TableInv, CopyInv, LeaseInv, RevisionInv, DataInv;
    PhaseStepRest(sys, e, AfterLockAccount(sys, e, account));
  }

  lemma CheckOverlapKept(sys: System, e: Epoch)
    requires Inv(sys) && CanCheckOverlap(sys, e)
    ensures Inv(AfterCheckOverlap(sys, e)) && Evolves(sys, AfterCheckOverlap(sys, e))
  {
    hide TableInv, CopyInv, LeaseInv, RevisionInv, DataInv;
    PhaseStepRest(sys, e, AfterCheckOverlap(sys, e));
  }

  lemma AbortPublicationClaims(sys: System, e: Epoch)
    requires ClaimInv(sys) && e in sys.handles
    ensures ClaimInv(AfterAbortPublication(sys, e))
  {
  }

  lemma AbortPublicationLocks(sys: System, e: Epoch)
    requires PublicationInv(sys) && e in sys.handles
    ensures PublicationInv(AfterAbortPublication(sys, e))
  {
    var next := AfterAbortPublication(sys, e);
    forall other | other in next.handles
      ensures PublicationHolds(next, other, next.handles[other])
    {
      assert PublicationHolds(sys, other, sys.handles[other]);
      hide PublicationInv, Overlaps;
    }
  }

  lemma AbortPublicationKept(sys: System, e: Epoch)
    requires Inv(sys) && e in sys.handles
    ensures Inv(AfterAbortPublication(sys, e)) && Evolves(sys, AfterAbortPublication(sys, e))
  {
    AbortPublicationClaims(sys, e);
    AbortPublicationLocks(sys, e);
    hide TableInv, ClaimInv, CopyInv, PublicationInv, LeaseInv, RevisionInv, DataInv;
    PhaseStepRest(sys, e, AfterAbortPublication(sys, e));
  }

  /** The rows of a batch are as many as its records: the slices are distinct. */
  lemma {:induction false} BatchSize(batch: seq<CostRow>)
    requires DistinctSlices(batch)
    ensures |set r | r in batch| == |batch|
  {
    if batch != [] {
      var init := batch[..|batch| - 1];
      BatchSize(init);
      assert (set r | r in batch) == (set r | r in init) + {batch[|batch| - 1]};
    }
  }

  /** The claim becomes a lease. The rows and locks it checked are still as it saw them. */
  lemma CommitLeaseTables(sys: System, tx: nat)
    requires ControlInv(sys) && CanCommitLease(sys, tx)
    ensures TableInv(AfterCommitLease(sys, tx))
  {
    assert ClaimHolds(sys, tx, sys.claims[tx]);
  }

  lemma CommitLeaseClaims(sys: System, tx: nat)
    requires ControlInv(sys) && CanCommitLease(sys, tx)
    ensures ClaimInv(AfterCommitLease(sys, tx))
  {
    assert ClaimHolds(sys, tx, sys.claims[tx]);
  }

  lemma CommitLeaseCopies(sys: System, tx: nat)
    requires ControlInv(sys) && CanCommitLease(sys, tx)
    ensures CopyInv(AfterCommitLease(sys, tx)) && RevisionInv(AfterCommitLease(sys, tx))
  {
    assert ClaimHolds(sys, tx, sys.claims[tx]);
  }

  lemma CommitLeasePublications(sys: System, tx: nat)
    requires ControlInv(sys) && CanCommitLease(sys, tx)
    ensures PublicationInv(AfterCommitLease(sys, tx))
  {
    assert ClaimHolds(sys, tx, sys.claims[tx]);
    hide TableInv, ClaimInv, LeaseInv, RevisionInv, Overlaps;
  }

  lemma CommitLeaseLeases(sys: System, tx: nat)
    requires ControlInv(sys) && CanCommitLease(sys, tx)
    ensures LeaseInv(AfterCommitLease(sys, tx))
  {
    assert ClaimHolds(sys, tx, sys.claims[tx]);
  }

  lemma CommitLeaseCounts(sys: System, tx: nat)
    requires CountInv(sys) && TableInv(sys) && CanCommitLease(sys, tx)
    ensures CountInv(AfterCommitLease(sys, tx))
  {
    assert sys.leases == AfterCommitLease(sys, tx).leases[..|sys.leases|];
  }

  lemma CommitLeaseData(sys: System, tx: nat)
    requires Inv(sys) && CanCommitLease(sys, tx)
    ensures DataInv(AfterCommitLease(sys, tx))
  {
    assert TableInv(sys);
    CommitLeaseCounts(sys, tx);
    hide ControlInv, CountInv, Latest, Publications, Published;
  }

  lemma CommitLeaseKept(sys: System, tx: nat)
    requires Inv(sys) && CanCommitLease(sys, tx)
    ensures Inv(AfterCommitLease(sys, tx)) && Evolves(sys, AfterCommitLease(sys, tx))
  {
    hide CopyInv, PublicationInv, LeaseInv, RevisionInv, DataInv;
    assert ClaimHolds(sys, tx, sys.claims[tx]) && TableInv(sys);
    hide TableInv, ClaimInv;
    CommitLeaseTables(sys, tx);
    CommitLeaseClaims(sys, tx);
    CommitLeaseCopies(sys, tx);
    CommitLeasePublications(sys, tx);
    CommitLeaseLeases(sys, tx);
    CommitLeaseData(sys, tx);
    CommitLeaseEvolves(sys, tx);
    hide AfterCommitLease, CanCommitLease, ClaimHolds, Evolves;
  }

  lemma CommitLeaseEvolves(sys: System, tx: nat)
    requires TableInv(sys) && CanCommitLease(sys, tx) && ClaimHolds(sys, tx, sys.claims[tx])
    ensures Evolves(sys, AfterCommitLease(sys, tx))
  {
    hide KeysUnique, OneLeasePerSource, SourceLeased;
  }

  lemma CommitPublicationTables(sys: System, e: Epoch)
    requires TableInv(sys) && ClaimInv(sys) && CanCommitPublication(sys, e)
    ensures TableInv(AfterCommitPublication(sys, e)) && ClaimInv(AfterCommitPublication(sys, e))
  {
    hide Replace;
  }

  lemma CommitPublicationCopies(sys: System, e: Epoch)
    requires CopyInv(sys) && LeaseInv(sys) && CanCommitPublication(sys, e)
    ensures CopyInv(AfterCommitPublication(sys, e)) && LeaseInv(AfterCommitPublication(sys, e))
  {
    hide Replace;
  }

  /** A batch another thread checked against the cost table still has no foreign row: the
      accounts of the two batches are locked by different threads. */
  lemma CheckedBatchKept(sys: System, e: Epoch, other: Epoch)
    requires ControlInv(sys) && CanCommitPublication(sys, e)
    requires other in sys.handles && other != e && sys.handles[other].phase.Checked?
    ensures !Overlaps(AfterCommitPublication(sys, e).costs, sys.handles[other].source.value, sys.handles[other].phase.batch)
  {
    assert PublicationHolds(sys, e, sys.handles[e]) && PublicationHolds(sys, other, sys.handles[other]);
    hide ControlInv;
    var costs, s := AfterCommitPublication(sys, e).costs, sys.handles[other].source.value;
    var mine, batch := sys.handles[e].phase.batch, sys.handles[other].phase.batch;
    assert forall a :: a in Accounts(mine) ==> a !in Accounts(batch);
    assert forall r :: r in mine ==> r.account in Accounts(mine);
    forall b | b in batch
      ensures !ForeignRow(costs, s, b.account, b.day)
    {
      assert b.account in Accounts(batch);
      assert !ForeignRow(sys.costs, s, b.account, b.day);
    }
  }

  /** Another thread keeps its locks and what it checked. */
  lemma OtherThreadKept(sys: System, e: Epoch, other: Epoch)
    requires PublicationInv(sys) && CanCommitPublication(sys, e) && other in sys.handles && other != e
    requires sys.handles[other].phase.Checked? ==>
               !Overlaps(AfterCommitPublication(sys, e).costs, sys.handles[other].source.value, sys.handles[other].phase.batch)
    ensures PublicationHolds(AfterCommitPublication(sys, e), other, sys.handles[other])
  {
    assert PublicationHolds(sys, other, sys.handles[other]) && PublicationHolds(sys, e, sys.handles[e]);
    hide PublicationInv, Overlaps, Replace, BatchOf, DistinctSlices;
  }

  lemma CommitPublicationLocks(sys: System, e: Epoch)
    requires ControlInv(sys) && CanCommitPublication(sys, e)
    ensures PublicationInv(AfterCommitPublication(sys, e))
  {
    var next := AfterCommitPublication(sys, e);
    forall other | other in next.handles
      ensures PublicationHolds(next, other, next.handles[other])
    {
      if other != e {
        assert PublicationHolds(sys, other, sys.handles[other]);
        if sys.handles[other].phase.Checked? {
          CheckedBatchKept(sys, e, other);
        }
        OtherThreadKept(sys, e, other);
        hide PublicationHolds, ControlInv, Overlaps, Replace;
      }
    }
    hide ControlInv, PublicationHolds, Overlaps, Replace;
  }

  lemma CommitPublicationRevision(sys: System, e: Epoch)
    requires ControlInv(sys) && CanCommitPublication(sys, e)
    ensures RevisionInv(AfterCommitPublication(sys, e))
  {
  }

  lemma CommitPublicationLog(sys: System, e: Epoch)
    requires Inv(sys) && CanCommitPublication(sys, e)
    ensures LogInv(AfterCommitPublication(sys, e)) && CountInv(AfterCommitPublication(sys, e))
  {
    hide TableInv, ClaimInv, RevisionInv, CostInv, PeriodInv, OneSourceInv, ProgressInv, Replace;
  }

  lemma CommitPublicationProgress(sys: System, e: Epoch)
    requires Inv(sys) && CanCommitPublication(sys, e)
    ensures ProgressInv(AfterCommitPublication(sys, e))
  {
    hide TableInv, ClaimInv, LeaseInv, PublicationInv, RevisionInv, LogInv, CountInv, CostInv, PeriodInv, OneSourceInv, Replace;
  }

  lemma CommitPublicationCosts(sys: System, e: Epoch)
    requires Inv(sys) && CanCommitPublication(sys, e)
    ensures CostInv(AfterCommitPublication(sys, e))
  {
    assert CopyHolds(sys, e, sys.handles[e]) && PublicationHolds(sys, e, sys.handles[e]);
    assert sys.pubs == AfterCommitPublication(sys, e).pubs[..|sys.pubs|];
    hide ControlInv, LogInv, CountInv, PeriodInv, OneSourceInv, ProgressInv;
  }

  lemma CommitPublicationPeriods(sys: System, e: Epoch)
    requires Inv(sys) && CanCommitPublication(sys, e)
    ensures PeriodInv(AfterCommitPublication(sys, e))
  {
    var h := sys.handles[e];
    assert CopyHolds(sys, e, h) && PublicationHolds(sys, e, h) && RevisionHolds(sys, e, h);
    assert sys.pubs == AfterCommitPublication(sys, e).pubs[..|sys.pubs|];
    BatchSize(h.phase.batch);
    hide ControlInv, LogInv, CountInv, CostInv, OneSourceInv, ProgressInv;
  }

  lemma CommitPublicationOverlap(sys: System, e: Epoch)
    requires Inv(sys) && CanCommitPublication(sys, e)
    ensures OneSourceInv(AfterCommitPublication(sys, e))
  {
  }

  lemma CommitPublicationEvolves(sys: System, e: Epoch)
    requires CanCommitPublication(sys, e)
    ensures Evolves(sys, AfterCommitPublication(sys, e))
  {
  }

  lemma CommitPublicationKept(sys: System, e: Epoch)
    requires Inv(sys) && CanCommitPublication(sys, e)
    ensures Inv(AfterCommitPublication(sys, e)) && Evolves(sys, AfterCommitPublication(sys, e))
  {
    CommitPublicationTables(sys, e);
    CommitPublicationCopies(sys, e);
    CommitPublicationLocks(sys, e);
    CommitPublicationRevision(sys, e);
    CommitPublicationLog(sys, e);
    CommitPublicationProgress(sys, e);
    CommitPublicationCosts(sys, e);
    CommitPublicationPeriods(sys, e);
    CommitPublicationOverlap(sys, e);
    CommitPublicationEvolves(sys, e);
    hide Evolves, TableInv, ClaimInv, CopyInv, PublicationInv, LeaseInv, RevisionInv, LogInv, CountInv, CostInv, PeriodInv,
      OneSourceInv, ProgressInv;
  }

  lemma FinishData(sys: System, e: Epoch, months: set<Month>)
    requires DataInv(sys) && CanFinish(sys, e, months)
    ensures DataInv(AfterFinish(sys, e, months))
  {
  }

  lemma FinishKept(sys: System, e: Epoch, months: set<Month>)
    requires Inv(sys) && CanFinish(sys, e, months)
    ensures Inv(AfterFinish(sys, e, months)) && Evolves(sys, AfterFinish(sys, e, months))
  {
    hide DataInv, LogInv, CountInv, CostInv, PeriodInv, OneSourceInv, ProgressInv;
    FinishData(sys, e, months);
    FinishControl(sys, e, months);
    hide ControlInv;
  }

  lemma FinishControl(sys: System, e: Epoch, months: set<Month>)
    requires ControlInv(sys) && CanFinish(sys, e, months)
    ensures ControlInv(AfterFinish(sys, e, months))
  {
    FinishPublication(sys, e, months);
    hide PublicationInv;
  }

  lemma FinishPublication(sys: System, e: Epoch, months: set<Month>)
    requires PublicationInv(sys) && CanFinish(sys, e, months)
    ensures PublicationInv(AfterFinish(sys, e, months))
  {
    SourcesStepPublication(sys, sys.(sources := AfterFinish(sys, e, months).sources));
  }

  /** No invariant looks at verification, discovery and budget import, or at open forms. */
  lemma CheckStepKept(sys: System, next: System)
    requires Inv(sys) && next == sys.(checks := next.checks, evidence := next.evidence, forms := next.forms, pulls := next.pulls)
    ensures Inv(next) && Evolves(sys, next)
  {
    CheckStepControl(sys, next);
    hide ControlInv;
  }

  lemma CheckStepControl(sys: System, next: System)
    requires ControlInv(sys) && next == sys.(checks := next.checks, evidence := next.evidence, forms := next.forms, pulls := next.pulls)
    ensures ControlInv(next)
  {
    CheckStepTables(sys, next);
    CheckStepPublications(sys, next);
    hide TableInv, ClaimInv, CopyInv, PublicationInv, LeaseInv, RevisionInv;
  }

  lemma CheckStepTables(sys: System, next: System)
    requires ControlInv(sys) && next == sys.(checks := next.checks, evidence := next.evidence, forms := next.forms, pulls := next.pulls)
    ensures TableInv(next) && ClaimInv(next) && CopyInv(next)
  {
    hide PublicationInv, LeaseInv, RevisionInv;
  }

  lemma CheckStepPublications(sys: System, next: System)
    requires ControlInv(sys) && next == sys.(checks := next.checks, evidence := next.evidence, forms := next.forms, pulls := next.pulls)
    ensures PublicationInv(next) && LeaseInv(next) && RevisionInv(next)
  {
    hide TableInv, ClaimInv, CopyInv;
  }

  lemma SaveFormKept(sys: System, tx: nat)
    requires Inv(sys) && CanSaveForm(sys, tx)
    ensures Inv(AfterSaveForm(sys, tx)) && Evolves(sys, AfterSaveForm(sys, tx))
  {
    var next := AfterSaveForm(sys, tx);
    assert SourcesStep(sys, next.sources);
    hide Inv, Evolves, SourcesStep;
    SourcesStepKept(sys, sys.(sources := next.sources));
    CheckStepKept(sys.(sources := next.sources), next);
    EvolvesSame(sys, sys.(sources := next.sources), next);
  }

  lemma EvolvesSame(sys: System, middle: System, next: System)
    requires Evolves(sys, middle) && next.jobs == middle.jobs && next.nextJob == middle.nextJob && next.handles == middle.handles
    ensures Evolves(sys, next)
  {
  }

  // --- Pulls ---------------------------------------------------------------------------------------

  /** Locks of pulls stay, and a queued job of a source locked by a pull stays queued or goes. */
  ghost predicate PullsUndisturbed(sys: System, next: System) {
    && next.nextJob >= sys.nextJob
    && (forall s :: s in sys.sourceLock && sys.sourceLock[s].ByPull? ==> s in next.sourceLock && next.sourceLock[s] == sys.sourceLock[s])
    && (forall id :: id in next.jobs && id < sys.nextJob ==>
          && id in sys.jobs
          && (sys.jobs[id].status == Queued && sys.jobs[id].source.Some?
              && sys.jobs[id].source.value in sys.sourceLock && sys.sourceLock[sys.jobs[id].source.value].ByPull? ==>
                next.jobs[id].status == Queued && next.jobs[id].source == sys.jobs[id].source))
  }

  lemma UndisturbedKept(sys: System, next: System)
    requires PullInv(sys) && PullsUndisturbed(sys, next) && next.pulls == sys.pulls
    ensures PullInv(next)
  {
    forall tx | tx in next.pulls
      ensures PullHolds(next, tx, next.pulls[tx])
    {
      assert PullHolds(sys, tx, sys.pulls[tx]);
    }
  }

  /** A lease takes the source row before the job row becomes leased. */
  lemma LeaseUndisturbed(sys: System, tx: nat)
    requires Inv(sys) && CanCommitLease(sys, tx)
    ensures PullsUndisturbed(sys, AfterCommitLease(sys, tx))
  {
    assert ClaimHolds(sys, tx, sys.claims[tx]) && TableInv(sys);
    hide Inv;
  }

  predicate OfPull(step: QueueStep) {
    step.BeginPull? || step.ChooseJob? || step.WritePull? || step.EndPull?
  }

  lemma PullStepPulls(sys: System, step: QueueStep, next: System)
    requires Inv(sys) && PullInv(sys) && QueueNext(sys, step, next) && OfPull(step)
    ensures PullInv(next)
  {
    hide Inv, PullInv, CanBeginPull, CanChooseJob, CanWritePull, AfterBeginPull, AfterChooseJob, AfterWritePull, AfterEndPull;
    if step.BeginPull? {
      BeginPullPulls(sys, step.tx, step.s);
    } else if step.ChooseJob? {
      ChooseJobPulls(sys, step.tx, step.id);
    } else if step.WritePull? {
      WritePullPulls(sys, step.tx, step.monthsBack);
    } else {
      EndPullPulls(sys, step.tx);
    }
  }

  lemma QueueStepPulls(sys: System, step: QueueStep, next: System)
    requires Inv(sys) && PullInv(sys) && QueueNext(sys, step, next)
    ensures PullInv(next)
  {
    assert TableInv(sys);
    assert step.CommitLease? ==> CanCommitLease(sys, step.tx) && next == AfterCommitLease(sys, step.tx);
    hide Inv, PullInv, PullsUndisturbed, TableInv, QueueNext, CanCommitLease;
    if OfPull(step) {
      PullStepPulls(sys, step, next);
    } else {
      if step.CommitLease? {
        LeaseUndisturbed(sys, step.tx);
      } else {
        OtherStepUndisturbed(sys, step, next);
      }
      UndisturbedKept(sys, next);
    }
  }

  /** The status of a row changes only if it is leased. */
  ghost predicate QueuedStays(sys: System, jobs: Jobs) {
    forall id :: id in jobs ==>
      id in sys.jobs && (sys.jobs[id].status == Queued ==> jobs[id].status == Queued && jobs[id].source == sys.jobs[id].source)
  }

  lemma StatementQueuedStays(sys: System, step: QueueStep, next: System)
    requires QueueNext(sys, step, next) && (step.Renew? || step.CompleteJob? || step.FailJob? || step.RecoverJob? || step.Coalesce?)
    ensures QueuedStays(sys, next.jobs) && next == sys.(jobs := next.jobs)
  {
    hide Delay, Backoff, Exhausted;
  }

  lemma QueuedUndisturbed(sys: System, jobs: Jobs)
    requires QueuedStays(sys, jobs)
    ensures PullsUndisturbed(sys, sys.(jobs := jobs))
  {
  }

  lemma EnqueueUndisturbed(sys: System, job: Job)
    ensures PullsUndisturbed(sys, AfterEnqueue(sys, job))
  {
  }

  lemma ClaimUndisturbed(sys: System, step: QueueStep, next: System)
    requires QueueNext(sys, step, next) && forall id :: id in sys.jobs ==> id < sys.nextJob
    requires step.Tick? || step.BeginLease? || step.PickRow? || step.SkipRow? || step.HoldSource? || step.Recheck? || step.AbortLease?
    ensures PullsUndisturbed(sys, next) && next.pulls == sys.pulls
  {
    hide SourceLeased, LeasedSources;
  }

  lemma OtherStepUndisturbed(sys: System, step: QueueStep, next: System)
    requires TableInv(sys) && QueueNext(sys, step, next)
    requires !OfPull(step) && !step.CommitLease?
    ensures PullsUndisturbed(sys, next) && next.pulls == sys.pulls
  {
    hide Bounded, KeysUnique, OneLeasePerSource, PullsUndisturbed, QueuedStays;
    if step.Renew? || step.CompleteJob? || step.FailJob? || step.RecoverJob? || step.Coalesce? {
      StatementQueuedStays(sys, step, next);
      hide QueueNext;
      QueuedUndisturbed(sys, next.jobs);
    } else if step.Enqueue? {
      EnqueueUndisturbed(sys, step.job);
    } else {
      hide QueueNext;
      ClaimUndisturbed(sys, step, next);
    }
  }

  lemma BeginPullPulls(sys: System, tx: nat, s: SourceId)
    requires PullInv(sys) && CanBeginPull(sys, tx, s)
    ensures PullInv(AfterBeginPull(sys, tx, s))
  {
  }

  lemma ChooseJobPulls(sys: System, tx: nat, id: JobId)
    requires Inv(sys) && PullInv(sys) && CanChooseJob(sys, tx, id)
    ensures PullInv(AfterChooseJob(sys, tx, id))
  {
    assert PullHolds(sys, tx, sys.pulls[tx]) && TableInv(sys);
    hide Inv;
  }

  /** The pull is over; another one holds another source. */
  lemma EndPullPulls(sys: System, tx: nat)
    requires PullInv(sys) && tx in sys.pulls
    ensures PullInv(AfterEndPull(sys, tx))
  {
    var next := AfterEndPull(sys, tx);
    forall t | t in next.pulls
      ensures PullHolds(next, t, next.pulls[t])
    {
      assert PullHolds(sys, t, sys.pulls[t]) && PullHolds(sys, tx, sys.pulls[tx]);
    }
  }

  lemma WritePullPulls(sys: System, tx: nat, monthsBack: nat)
    requires PullInv(sys) && CanWritePull(sys, tx)
    ensures PullInv(AfterWritePull(sys, tx, monthsBack))
  {
    var next := AfterWritePull(sys, tx, monthsBack);
    EndPullPulls(sys, tx);
    forall t | t in next.pulls
      ensures PullHolds(next, t, next.pulls[t])
    {
      assert PullHolds(AfterEndPull(sys, tx), t, sys.pulls[t]);
      hide PullInv, CanWritePull;
    }
  }

  lemma OperatorStepPulls(sys: System, step: OperatorStep, next: System)
    requires PullInv(sys) && OperatorNext(sys, step, next)
    requires forall id :: id in sys.jobs ==> id < sys.nextJob
    ensures PullInv(next)
  {
    assert PullsUndisturbed(sys, next) && next.pulls == sys.pulls by {
      hide PullInv, FormRow;
    }
    hide OperatorNext, PullsUndisturbed;
    UndisturbedKept(sys, next);
  }

  lemma CollectorStepPulls(sys: System, step: CollectorStep, next: System)
    requires PullInv(sys) && CollectorNext(sys, step, next)
    requires forall id :: id in sys.jobs ==> id < sys.nextJob
    ensures PullInv(next)
  {
    assert PullsUndisturbed(sys, next) && next.pulls == sys.pulls by {
      hide PullInv, Overlaps, DistinctSlices, BatchOf, Replace, Accounts, Live;
    }
    hide CollectorNext, PullsUndisturbed;
    UndisturbedKept(sys, next);
  }

  lemma QueueStepKept(sys: System, step: QueueStep, next: System)
    requires Inv(sys) && PullInv(sys) && QueueNext(sys, step, next)
    ensures Inv(next) && Evolves(sys, next)
  {
    hide Inv, PullInv, Evolves, CanEnqueue, CanCoalesce, CanBeginPull, CanChooseJob, CanWritePull, CanPickRow, CanSkipRow, CanHoldSource, CanRecheck,
      CanCommitLease, CanRecover, AfterEnqueue, AfterCoalesce, AfterBeginPull, AfterWritePull, AfterEndPull, AfterBeginLease, AfterPickRow,
      AfterSkipRow, AfterHoldSource, AfterRecheck, AfterCommitLease, AfterAbortLease, AfterRenew, AfterComplete, AfterFail, AfterRecover, Delay;
    match step
    case Tick(time) => TickKept(sys, time);
    case Enqueue(job) => EnqueueKept(sys, job);
    case Coalesce(id, runAfter, priority) => CoalesceKept(sys, id, runAfter, priority);
    case BeginPull(tx, s) => BeginPullKept(sys, tx, s);
    case ChooseJob(tx, id) => ChooseJobKept(sys, tx, id);
    case WritePull(tx, monthsBack) => WritePullKept(sys, tx, monthsBack);
    case EndPull(tx) => EndPullKept(sys, tx);
    case BeginLease(tx, worker) => BeginLeaseKept(sys, tx, worker);
    case PickRow(tx, id) => PickRowKept(sys, tx, id);
    case SkipRow(tx) => SkipRowKept(sys, tx);
    case HoldSource(tx) => HoldSourceKept(sys, tx);
    case Recheck(tx) => RecheckKept(sys, tx);
    case CommitLease(tx) => CommitLeaseKept(sys, tx);
    case AbortLease(tx) => AbortLeaseKept(sys, tx);
    case Renew(e, save) => RenewKept(sys, e, save);
    case CompleteJob(e) => CompleteKept(sys, e);
    case FailJob(e, permanent, delay) => FailKept(sys, e, permanent, delay);
    case RecoverJob(id, seen, delay) => RecoverKept(sys, id, seen, delay);
  }

  lemma OperatorStepKept(sys: System, step: OperatorStep, next: System)
    requires Inv(sys) && OperatorNext(sys, step, next)
    ensures Inv(next) && Evolves(sys, next)
  {
    hide Inv, Evolves;
    match step
    case StopCustomer(stopped) => StopKept(sys, stopped);
    case Rotate(s, externalId) => RotateKept(sys, s, externalId);
    case SetEnabled(s, enabled) => SourcesStepKept(sys, AfterSetEnabled(sys, s, enabled));
    case SetCustomerActive(s, active) => SourcesStepKept(sys, AfterSetActive(sys, s, active));
    case DropQueued(s) => DropQueuedKept(sys, s);
    case OpenForm(tx, s) => CheckStepKept(sys, AfterOpenForm(sys, tx, s));
    case CompareForm(tx, roleArn, capabilities) => CheckStepKept(sys, AfterCompareForm(sys, tx, roleArn, capabilities));
    case SaveForm(tx) => SaveFormKept(sys, tx);
  }

  lemma CollectorStepKept(sys: System, step: CollectorStep, next: System)
    requires Inv(sys) && CollectorNext(sys, step, next)
    ensures Inv(next) && Evolves(sys, next)
  {
    hide Inv, Evolves;
    match step
    case LoadSource(e) => LoadSourceKept(sys, e);
    case ReadPeriod(e, month, batch) => ReadPeriodKept(sys, e, month, batch);
    case LockJob(e) => LockJobKept(sys, e);
    case LockSource(e) => LockSourceKept(sys, e);
    case LockAccount(e, account) => LockAccountKept(sys, e, account);
    case CheckOverlap(e) => CheckOverlapKept(sys, e);
    case CommitPublication(e) => CommitPublicationKept(sys, e);
    case AbortPublication(e) => AbortPublicationKept(sys, e);
    case FinishCollection(e, months) => FinishKept(sys, e, months);
    case LoadForCheck(tx, s) => CheckStepKept(sys, AfterLoadForCheck(sys, tx, s));
    case CommitCheck(tx) => CheckStepKept(sys, AfterCommitCheck(sys, tx));
  }

  /** Every step of the protocol keeps every invariant. */
  lemma StepKept(sys: System, step: Step, next: System)
    requires Inv(sys) && PullInv(sys) && Next(sys, step, next)
    ensures Inv(next) && PullInv(next) && Evolves(sys, next)
  {
    assert TableInv(sys);
    hide Inv, PullInv, Evolves, QueueNext, OperatorNext, CollectorNext, Bounded, KeysUnique, OneLeasePerSource;
    match step
    case OfQueue(queue) =>
      QueueStepKept(sys, queue, next);
      QueueStepPulls(sys, queue, next);
    case OfOperator(operator) =>
      OperatorStepKept(sys, operator, next);
      OperatorStepPulls(sys, operator, next);
    case OfCollector(collector) =>
      CollectorStepKept(sys, collector, next);
      CollectorStepPulls(sys, collector, next);
  }
}
