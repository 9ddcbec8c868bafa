/** When a job is tried again: never before the time its last attempt left it. */
module Retries {
  import opened Options
  import opened JobTable
  import opened Calendar
  import opened Protocol
  import opened ProtocolInvariants
  import opened CollectionTheorems

  /** What a claim holds or has cleared is due at the time of the claim, which is not in the future. */
  ghost predicate ClaimDue(sys: System, c: Claim) {
    c.now <= sys.now && (!c.Scanning? && c.job in sys.jobs ==> sys.jobs[c.job].runAfter <= c.now)
  }

  ghost predicate DueInv(sys: System) {
    forall tx :: tx in sys.claims ==> ClaimDue(sys, sys.claims[tx])
  }

  predicate Leasing(sys: System, step: Step, id: JobId) {
    step.OfQueue? && step.queue.CommitLease? && step.queue.tx in sys.claims && !sys.claims[step.queue.tx].Scanning?
    && sys.claims[step.queue.tx].job == id
  }

  // --- Locked rows stay ------------------------------------------------------------------------

  lemma QueuesLeaveLocked(sys: System, step: QueueStep, next: System, id: JobId)
    requires QueueNext(sys, step, next) && id in sys.jobs && id < sys.nextJob && id in sys.jobLock && !Leasing(sys, OfQueue(step), id)
    ensures id in next.jobs && next.jobs[id] == sys.jobs[id]
  {
    hide Delay, CanEnqueue, Release, LeasedSources, SourceLeased, Live;
  }

  lemma OperatorsLeaveLocked(sys: System, step: OperatorStep, next: System, id: JobId)
    requires OperatorNext(sys, step, next) && id in sys.jobs && id in sys.jobLock
    ensures id in next.jobs && next.jobs[id] == sys.jobs[id]
  {
  }

  lemma LockedRowStays(sys: System, step: Step, next: System, id: JobId)
    requires Next(sys, step, next) && id in sys.jobs && id < sys.nextJob && id in sys.jobLock && !Leasing(sys, step, id)
    ensures id in next.jobs && next.jobs[id] == sys.jobs[id]
  {
    hide QueueNext, OperatorNext, CollectorNext;
    match step
    case OfQueue(queue) => QueuesLeaveLocked(sys, queue, next, id);
    case OfOperator(operator) => OperatorsLeaveLocked(sys, operator, next, id);
    case OfCollector(collector) => CollectorStepsLeaveData(sys, collector, next);
  }

  // --- Claims ------------------------------------------------------------------------------------

  /** Where a claim of the next state comes from: it was there with its time, and its job if it has one,
      unless it begins now or picks a row that is due. */
  ghost predicate ComesFrom(sys: System, next: System, tx: nat)
    requires tx in next.claims
  {
    var d := next.claims[tx];
    || (d.Scanning? && d.now <= sys.now)
    || (tx in sys.claims && d.now == sys.claims[tx].now && d.RowHeld? && d.job in sys.jobs && sys.jobs[d.job].runAfter <= d.now
        && d.job !in sys.jobLock)
    || (tx in sys.claims && d.now == sys.claims[tx].now && !d.Scanning? && !sys.claims[tx].Scanning? && d.job == sys.claims[tx].job)
  }

  lemma QueueClaims(sys: System, step: QueueStep, next: System, tx: nat)
    requires QueueNext(sys, step, next) && DueInv(sys) && tx in next.claims
    ensures ComesFrom(sys, next, tx) && sys.now <= next.now
    ensures tx in sys.claims && !sys.claims[tx].Scanning? && !next.claims[tx].Scanning? ==>
              && next.claims[tx].job == sys.claims[tx].job && next.claims[tx].now == sys.claims[tx].now
              && (step.CommitLease? ==> step.tx != tx)
    ensures !next.claims[tx].Scanning? && !(tx in sys.claims && !sys.claims[tx].Scanning?) ==> next.jobs == sys.jobs && next.claims[tx].RowHeld?
  {
    assert tx in sys.claims ==> ClaimDue(sys, sys.claims[tx]);
    hide DueInv, Delay, CanEnqueue, Release, LeasedSources, SourceLeased, Live, Heartbeat, Complete, Fail, Recover;
  }

  lemma OperatorsKeepClaims(sys: System, step: OperatorStep, next: System)
    requires OperatorNext(sys, step, next)
    ensures next.claims == sys.claims && next.now == sys.now
  {
    hide InScope, QueuedOf, CanDropQueued;
  }

  lemma CollectorsKeepClaims(sys: System, step: CollectorStep, next: System)
    requires CollectorNext(sys, step, next)
    ensures next.claims == sys.claims && next.now == sys.now
  {
    hide Live, Overlaps, BatchOf, Accounts, Replace, Release, DistinctSlices;
  }

  /** Where a claim of the next state was before. */
  lemma ClaimsMove(sys: System, step: Step, next: System, tx: nat)
    requires Next(sys, step, next) && DueInv(sys) && tx in next.claims
    ensures sys.now <= next.now && next.claims[tx].now <= next.now
    ensures tx in sys.claims && !sys.claims[tx].Scanning? && !next.claims[tx].Scanning? ==>
              && next.claims[tx].job == sys.claims[tx].job && next.claims[tx].now == sys.claims[tx].now
              && step != OfQueue(CommitLease(tx))
    ensures !next.claims[tx].Scanning? && !(tx in sys.claims && !sys.claims[tx].Scanning?) ==>
              next.jobs == sys.jobs && next.claims[tx].job in sys.jobs && sys.jobs[next.claims[tx].job].runAfter <= next.claims[tx].now
  {
    assert tx in sys.claims ==> ClaimDue(sys, sys.claims[tx]);
    hide QueueNext, OperatorNext, CollectorNext, DueInv;
    match step
    case OfQueue(queue) =>
      assert DueInv(sys);
      QueueClaims(sys, queue, next, tx);
    case OfOperator(operator) => OperatorsKeepClaims(sys, operator, next);
    case OfCollector(collector) => CollectorsKeepClaims(sys, collector, next);
  }

  /** A locked candidate stays as it is. */
  lemma CandidateStays(sys: System, step: Step, next: System, tx: nat)
    requires TableInv(sys) && ClaimInv(sys) && Next(sys, step, next)
    requires tx in sys.claims && !sys.claims[tx].Scanning? && step != OfQueue(CommitLease(tx))
    ensures sys.claims[tx].job in sys.jobs && sys.claims[tx].job in next.jobs
    ensures next.jobs[sys.claims[tx].job] == sys.jobs[sys.claims[tx].job]
  {
    hide QueueNext, OperatorNext, CollectorNext, Next;
    assert ClaimHolds(sys, tx, sys.claims[tx]);
    var id := sys.claims[tx].job;
    assert forall t :: t in sys.claims && !sys.claims[t].Scanning? && sys.claims[t].job == id ==> ClaimHolds(sys, t, sys.claims[t]) && t == tx;
    LockedRowStays(sys, step, next, id);
  }

  lemma DueStep(sys: System, step: Step, next: System)
    requires TableInv(sys) && ClaimInv(sys) && DueInv(sys) && Next(sys, step, next)
    ensures DueInv(next)
  {
    hide Next, TableInv, ClaimInv;
    forall tx | tx in next.claims
      ensures ClaimDue(next, next.claims[tx])
    {
      ClaimsMove(sys, step, next, tx);
      if tx in sys.claims && !sys.claims[tx].Scanning? && !next.claims[tx].Scanning? {
        CandidateStays(sys, step, next, tx);
        assert ClaimDue(sys, sys.claims[tx]);
      }
    }
  }

  // --- Whole runs ------------------------------------------------------------------------------------

  lemma {:induction false} DueReachable(states: seq<System>, steps: seq<Step>, i: nat)
    requires Run(states, steps) && i < |states|
    ensures DueInv(states[i])
  {
    hide Next, DataInv, TableInv, ClaimInv, CopyInv, PublicationInv, LeaseInv, RevisionInv, PullInv;
    if i > 0 {
      DueReachable(states, steps, i - 1);
      Reachable(states, steps, i - 1);
      DueStep(states[i - 1], steps[i - 1], states[i]);
    }
  }

  /** A job is leased only when it is due, by the clock of the claim, which is not ahead. */
  lemma LeasedWhenDue(states: seq<System>, steps: seq<Step>, j: nat, tx: nat)
    requires Run(states, steps) && j < |steps| && steps[j] == OfQueue(CommitLease(tx))
    ensures
      && tx in states[j].claims && !states[j].claims[tx].Scanning? && states[j].claims[tx].job in states[j].jobs
      && states[j].jobs[states[j].claims[tx].job].runAfter <= states[j].claims[tx].now <= states[j].now
  {
    assert Next(states[j], steps[j], states[j + 1]);
    DueReachable(states, steps, j);
    hide Run;
    assert ClaimDue(states[j], states[j].claims[tx]);
  }

  lemma QueuesKeepTimes(sys: System, step: QueueStep, next: System, id: JobId)
    requires QueueNext(sys, step, next) && id in sys.jobs && id < sys.nextJob && id in next.jobs
    requires sys.jobs[id].status == Queued && next.jobs[id].status == Queued && !(step.Coalesce? && step.id == id)
    ensures next.jobs[id].runAfter == sys.jobs[id].runAfter
  {
    hide Delay, CanEnqueue, Release, LeasedSources, SourceLeased, Live;
  }

  lemma OperatorsKeepTimes(sys: System, step: OperatorStep, next: System, id: JobId)
    requires OperatorNext(sys, step, next) && id in sys.jobs && id in next.jobs
    ensures next.jobs[id].runAfter == sys.jobs[id].runAfter
  {
  }

  /** Only an enqueue that meets a queued job changes its time. */
  lemma QueuedTimeStays(sys: System, step: Step, next: System, id: JobId)
    requires Next(sys, step, next) && id in sys.jobs && id < sys.nextJob && id in next.jobs
    requires sys.jobs[id].status == Queued && next.jobs[id].status == Queued
    requires !(step.OfQueue? && step.queue.Coalesce? && step.queue.id == id)
    ensures next.jobs[id].runAfter == sys.jobs[id].runAfter
  {
    hide QueueNext, OperatorNext, CollectorNext;
    match step
    case OfQueue(queue) => QueuesKeepTimes(sys, queue, next, id);
    case OfOperator(operator) => OperatorsKeepTimes(sys, operator, next, id);
    case OfCollector(collector) => CollectorStepsLeaveData(sys, collector, next);
  }

  ghost predicate WaitsBetween(states: seq<System>, steps: seq<Step>, i: nat, j: nat, id: JobId)
    requires |states| == |steps| + 1 && i <= j < |states|
  {
    && (forall k :: i <= k <= j ==> id in states[k].jobs && states[k].jobs[id].status == Queued)
    && (forall k :: i <= k < j ==> !(steps[k].OfQueue? && steps[k].queue.Coalesce? && steps[k].queue.id == id))
  }

  lemma {:induction false} TimeStays(states: seq<System>, steps: seq<Step>, i: nat, j: nat, id: JobId)
    requires Run(states, steps) && i <= j < |states| && WaitsBetween(states, steps, i, j, id)
    ensures states[j].jobs[id].runAfter == states[i].jobs[id].runAfter
    decreases j
  {
    hide Next, DataInv, ClaimInv, CopyInv, PublicationInv, LeaseInv, RevisionInv, PullInv;
    if i < j {
      TimeStays(states, steps, i, j - 1, id);
      Reachable(states, steps, j - 1);
      QueuedTimeStays(states[j - 1], steps[j - 1], states[j], id);
    }
  }

  /** A job that was given up is not leased again before a minute has passed, longer after more attempts,
      unless somebody asked for it in between. */
  lemma RetryIsNotEarly(states: seq<System>, steps: seq<Step>, i: nat, j: nat, tx: nat, id: JobId)
    requires Run(states, steps) && i < j < |steps| && WaitsBetween(states, steps, i + 1, j, id)
    requires id in states[i].jobs && states[i].jobs[id].status == Leased
    requires steps[j] == OfQueue(CommitLease(tx)) && tx in states[j].claims && !states[j].claims[tx].Scanning? && states[j].claims[tx].job == id
    ensures states[j].now >= states[j].claims[tx].now >= states[i].now + Backoff(states[i].jobs[id].attempts)
    ensures states[j].now >= states[i].now + 60 * SECOND
  {
    RequeuedJobWaits(states, steps, i, id);
    TimeStays(states, steps, i + 1, j, id);
    LeasedWhenDue(states, steps, j, tx);
    hide Run, Backoff;
  }
}
