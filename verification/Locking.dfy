/** What the row locks guarantee: nobody takes a lock that is held, and what is locked stays. */
module Locking {
  import opened Options
  import opened JobTable
  import opened Calendar
  import opened Protocol
  import opened ProtocolInvariants
  import opened CollectionTheorems
  import opened Invalidation

  /** A lock that is held is kept or given back, never taken over. */
  ghost predicate NotTaken<K(!new)>(locks: map<K, Owner>, next: map<K, Owner>) {
    forall k :: k in locks && k in next ==> next[k] == locks[k]
  }

  ghost predicate NothingTaken(sys: System, next: System) {
    NotTaken(sys.jobLock, next.jobLock) && NotTaken(sys.sourceLock, next.sourceLock) && NotTaken(sys.accountLock, next.accountLock)
  }

  predicate Claims(step: QueueStep) {
    step.BeginLease? || step.PickRow? || step.SkipRow? || step.HoldSource? || step.Recheck? || step.CommitLease? || step.AbortLease?
  }

  lemma ClaimsTakeNothing(sys: System, step: QueueStep, next: System)
    requires QueueNext(sys, step, next) && Claims(step)
    ensures NothingTaken(sys, next)
  {
    hide LeasedSources, SourceLeased, Live, Claimed;
  }

  lemma StatementsTakeNothing(sys: System, step: QueueStep, next: System)
    requires QueueNext(sys, step, next) && !Claims(step)
    ensures NothingTaken(sys, next)
  {
    hide Heartbeat, Complete, Fail, Recover, Delay, CanEnqueue, Live, Sooner;
  }

  lemma QueuesTakeNothing(sys: System, step: QueueStep, next: System)
    requires QueueNext(sys, step, next)
    ensures NothingTaken(sys, next)
  {
    hide QueueNext, NothingTaken;
    if Claims(step) {
      ClaimsTakeNothing(sys, step, next);
    } else {
      StatementsTakeNothing(sys, step, next);
    }
  }

  lemma OperatorsTakeNothing(sys: System, step: OperatorStep, next: System)
    requires OperatorNext(sys, step, next)
    ensures NothingTaken(sys, next)
  {
    hide InScope, QueuedOf, CanDropQueued;
  }

  lemma CollectorsTakeNothing(sys: System, step: CollectorStep, next: System)
    requires CollectorNext(sys, step, next)
    ensures NothingTaken(sys, next)
  {
    hide Live, Overlaps, BatchOf, Accounts, Replace, DistinctSlices;
  }

  /** No transaction takes a row or an account that another one holds. */
  lemma LocksAreNeverTaken(sys: System, step: Step, next: System)
    requires Next(sys, step, next)
    ensures NothingTaken(sys, next)
  {
    hide QueueNext, OperatorNext, CollectorNext, NothingTaken;
    match step
    case OfQueue(queue) => QueuesTakeNothing(sys, queue, next);
    case OfOperator(operator) => OperatorsTakeNothing(sys, operator, next);
    case OfCollector(collector) => CollectorsTakeNothing(sys, collector, next);
  }

  lemma OperatorsLeaveLockedSource(sys: System, step: OperatorStep, next: System, s: SourceId)
    requires OperatorNext(sys, step, next) && s in sys.sources && s in sys.sourceLock
    ensures s in next.sources && next.sources[s] == sys.sources[s].(customerActive := next.sources[s].customerActive)
  {
    hide InScope, QueuedOf, CanDropQueued;
  }

  lemma CollectorsLeaveLockedSource(sys: System, step: CollectorStep, next: System, s: SourceId)
    requires CollectorNext(sys, step, next) && s in sys.sources && s in sys.sourceLock
    ensures s in next.sources && next.sources[s] == sys.sources[s]
  {
    hide Live, Overlaps, BatchOf, Accounts, Replace, Release, DistinctSlices;
  }

  /** A locked source stays as it is, but for its customer, which is another row. */
  lemma LockedSourceStays(sys: System, step: Step, next: System, s: SourceId)
    requires Next(sys, step, next) && s in sys.sources && s in sys.sourceLock
    ensures s in next.sources && next.sources[s] == sys.sources[s].(customerActive := next.sources[s].customerActive)
  {
    hide QueueNext, OperatorNext, CollectorNext;
    match step
    case OfQueue(queue) => QueueStepsLeaveData(sys, queue, next);
    case OfOperator(operator) => OperatorsLeaveLockedSource(sys, operator, next, s);
    case OfCollector(collector) => CollectorsLeaveLockedSource(sys, collector, next, s);
  }

  lemma StatementsNeedIdle(sys: System, step: QueueStep, next: System, e: Epoch)
    requires QueueNext(sys, step, next) && e in sys.handles && !sys.handles[e].phase.Idle?
    ensures step != CompleteJob(e) && (step.Renew? ==> step.e != e) && (step.FailJob? ==> step.e != e)
  {
  }

  lemma WorkNeedsIdle(sys: System, step: CollectorStep, next: System, e: Epoch)
    requires CollectorNext(sys, step, next) && e in sys.handles
    ensures !sys.handles[e].phase.Idle? ==>
              step != LoadSource(e) && (step.ReadPeriod? ==> step.e != e) && (step.FinishCollection? ==> step.e != e)
    ensures step.ReadPeriod? && step.e == e ==> sys.handles[e].loaded.Some? && sys.handles[e].loaded.value.kind != MemberBudgets
    ensures step.LockAccount? && step.e == e ==>
              && sys.handles[e].phase.AccountsPending? && step.account in sys.handles[e].phase.todo
              && e in next.handles && next.handles[e].phase.AccountsPending?
              && next.handles[e].phase.todo == sys.handles[e].phase.todo - {step.account}
  {
    hide Live, Overlaps, BatchOf, Accounts, Replace, Release, DistinctSlices;
  }

  /** A thread does one thing after the other: while it publishes a month it loads nothing, begins no other
      month, ends no run and issues no statement about its job; it begins only months of a connection that
      collects costs, and locks only accounts of its batch, once each. */
  lemma OneThingAtATime(sys: System, step: Step, next: System, e: Epoch)
    requires Next(sys, step, next) && e in sys.handles
    ensures !sys.handles[e].phase.Idle? ==>
              && (step.OfQueue? ==>
                    && step.queue != CompleteJob(e) && (step.queue.Renew? ==> step.queue.e != e) && (step.queue.FailJob? ==> step.queue.e != e))
              && (step.OfCollector? ==>
                    && step.collector != LoadSource(e) && (step.collector.ReadPeriod? ==> step.collector.e != e)
                    && (step.collector.FinishCollection? ==> step.collector.e != e))
    ensures step.OfCollector? && step.collector.ReadPeriod? && step.collector.e == e ==>
              sys.handles[e].loaded.Some? && sys.handles[e].loaded.value.kind != MemberBudgets
    ensures step.OfCollector? && step.collector.LockAccount? && step.collector.e == e ==>
              && sys.handles[e].phase.AccountsPending? && step.collector.account in sys.handles[e].phase.todo
              && e in next.handles && next.handles[e].phase.AccountsPending?
              && next.handles[e].phase.todo == sys.handles[e].phase.todo - {step.collector.account}
  {
    hide QueueNext, OperatorNext, CollectorNext;
    match step
    case OfQueue(queue) =>
      if !sys.handles[e].phase.Idle? {
        StatementsNeedIdle(sys, queue, next, e);
      }
    case OfOperator(operator) =>
    case OfCollector(collector) => WorkNeedsIdle(sys, collector, next, e);
  }
}
