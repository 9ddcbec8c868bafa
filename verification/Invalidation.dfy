/** What stopping a customer or rotating an external id does to work in progress. */
module Invalidation {
  import opened Options
  import opened JobTable
  import opened Calendar
  import opened Protocol
  import opened ProtocolInvariants
  import opened CollectionTheorems

  predicate Stops(step: Step, s: SourceId) {
    step.OfOperator? && step.operator.StopCustomer? && s in step.operator.stopped
  }

  predicate Rotates(step: Step, s: SourceId) {
    step.OfOperator? && step.operator.Rotate? && step.operator.s == s
  }

  predicate Saves(sys: System, step: Step, s: SourceId) {
    step.OfOperator? && step.operator.SaveForm? && CanSaveForm(sys, step.operator.tx) && sys.forms[step.operator.tx].source == s
  }

  /** An operator enables the source, or a form that loaded it enabled is saved. */
  predicate Enables(sys: System, step: Step, s: SourceId) {
    step == OfOperator(SetEnabled(s, true)) || (Saves(sys, step, s) && sys.forms[step.operator.tx].row.enabled)
  }

  // --- One step --------------------------------------------------------------------------------

  /** Both raise the version. A stop disables the source and leaves it no active job; a rotation
      leaves it no queued job, the new external id and the rest of its connection. Other sources and
      their jobs stay as they are. */
  lemma InvalidationEffect(sys: System, step: Step, next: System, s: SourceId)
    requires Next(sys, step, next) && (Stops(step, s) || Rotates(step, s))
    ensures s in sys.sources && s in next.sources
    ensures next.sources[s].conn.version > sys.sources[s].conn.version
    ensures next.sources[s].conn.roleArn == sys.sources[s].conn.roleArn && next.sources[s].conn.customer == sys.sources[s].conn.customer
            && next.sources[s].conn.account == sys.sources[s].conn.account && next.sources[s].conn.kind == sys.sources[s].conn.kind
            && next.sources[s].conn.shared == sys.sources[s].conn.shared
            && next.sources[s].conn.capabilities == sys.sources[s].conn.capabilities
    ensures Stops(step, s) ==> !next.sources[s].enabled && next.sources[s].conn.externalId == sys.sources[s].conn.externalId
    ensures Stops(step, s) ==> forall id :: id in next.jobs && next.jobs[id].source == Some(s) ==> next.jobs[id].Terminal()
    ensures Rotates(step, s) ==> next.sources[s].conn.externalId == step.operator.externalId && next.sources[s].enabled == sys.sources[s].enabled
    ensures Rotates(step, s) ==> forall id :: id in next.jobs && next.jobs[id].source == Some(s) ==> next.jobs[id].status != Queued
    ensures forall t :: t in sys.sources && !Stops(step, t) && !Rotates(step, t) ==> t in next.sources && next.sources[t] == sys.sources[t]
    ensures forall id :: id in sys.jobs && (sys.jobs[id].source.Some? ==> !Stops(step, sys.jobs[id].source.value) && !Rotates(step, sys.jobs[id].source.value))
              ==> id in next.jobs && next.jobs[id] == sys.jobs[id]
  {
  }

  lemma OperatorsChangeSources(sys: System, step: OperatorStep, next: System, s: SourceId)
    requires OperatorNext(sys, step, next) && s in sys.sources
    ensures s in next.sources
    ensures next.sources[s].conn != sys.sources[s].conn ==>
              Stops(OfOperator(step), s) || Rotates(OfOperator(step), s) || Saves(sys, OfOperator(step), s)
    ensures !sys.sources[s].enabled ==> (next.sources[s].enabled <==> Enables(sys, OfOperator(step), s))
    ensures next.sources[s].customerActive == if step.SetCustomerActive? && step.s == s then step.active else sys.sources[s].customerActive
  {
    hide InScope, QueuedOf, CanDropQueued;
  }

  lemma CollectorsKeepConnections(sys: System, step: CollectorStep, next: System, s: SourceId)
    requires CollectorNext(sys, step, next) && s in sys.sources
    ensures s in next.sources && next.sources[s].conn == sys.sources[s].conn && next.sources[s].enabled == sys.sources[s].enabled
    ensures next.sources[s].customerActive == sys.sources[s].customerActive
  {
    hide Live, Overlaps, BatchOf, Accounts, Replace, Release, DistinctSlices;
  }

  /** The connection of a source changes only by a stop, a rotation or a saved form, a disabled
      source is enabled exactly by an operator or by a form that loaded it enabled, and only the customer's
      own switch makes it active or not. */
  lemma SourceChanges(sys: System, step: Step, next: System, s: SourceId)
    requires Next(sys, step, next) && s in sys.sources
    ensures s in next.sources
    ensures next.sources[s].conn != sys.sources[s].conn ==> Stops(step, s) || Rotates(step, s) || Saves(sys, step, s)
    ensures !sys.sources[s].enabled ==> (next.sources[s].enabled <==> Enables(sys, step, s))
    ensures next.sources[s].customerActive ==
            if step.OfOperator? && step.operator.SetCustomerActive? && step.operator.s == s then step.operator.active
            else sys.sources[s].customerActive
  {
    hide QueueNext, OperatorNext, CollectorNext, CanSaveForm;
    match step
    case OfQueue(queue) => QueueStepsLeaveData(sys, queue, next);
    case OfOperator(operator) => OperatorsChangeSources(sys, operator, next, s);
    case OfCollector(collector) => CollectorsKeepConnections(sys, collector, next, s);
  }

  /** A commit of any kind: a month, the end of a run, or the result of a check. */
  predicate CommitsFor(sys: System, step: Step, s: SourceId) {
    step.OfCollector? &&
    match step.collector
    case CommitPublication(e) => e in sys.handles && sys.handles[e].source == Some(s)
    case FinishCollection(e, months) => e in sys.handles && sys.handles[e].source == Some(s)
    case CommitCheck(tx) => tx in sys.checks && sys.checks[tx].source == s
    case _ => false
  }

  /** The connection that the work of a commit was loaded with. */
  function CommittedConnection(sys: System, step: Step): Option<Connection> {
    if !step.OfCollector? then None
    else match step.collector
      case CommitPublication(e) => if e in sys.handles then sys.handles[e].loaded else None
      case FinishCollection(e, months) => if e in sys.handles then sys.handles[e].loaded else None
      case CommitCheck(tx) => if tx in sys.checks then Some(sys.checks[tx].conn) else None
      case _ => None
  }

  /** Whatever commits was loaded with the connection its source has at the commit, and the source
      is enabled. */
  lemma CommitsAreCurrent(sys: System, step: CollectorStep, next: System, s: SourceId)
    requires PublicationInv(sys) && CollectorNext(sys, step, next) && CommitsFor(sys, OfCollector(step), s)
    ensures s in sys.sources && sys.sources[s].enabled && CommittedConnection(sys, OfCollector(step)) == Some(sys.sources[s].conn)
  {
    hide Live, DistinctSlices, Overlaps, BatchOf, Accounts, AfterCommitPublication, AfterFinish, AfterCommitCheck;
    if step.CommitPublication? {
      assert PublicationHolds(sys, step.e, sys.handles[step.e]);
      hide PublicationInv;
    }
  }

  /** Work starts only for a source that is enabled, has a role and an active customer, and has the version
      that the job was made for, if it was made for one. */
  lemma LoadsNeedActiveCustomer(sys: System, e: Epoch, next: System)
    requires CollectorNext(sys, LoadSource(e), next)
    ensures e in sys.handles && sys.handles[e].source.Some? && sys.handles[e].source.value in sys.sources
    ensures
      var source := sys.sources[sys.handles[e].source.value];
      && source.enabled && source.customerActive && source.conn.roleArn != ""
      && (sys.handles[e].version.Some? ==> sys.handles[e].version.value == source.conn.version)
  {
  }

  /** Every recheck of a source needs it enabled, its customer active and its connection unchanged. */
  lemma ChecksNeedActiveCustomer(sys: System, step: CollectorStep, next: System, s: SourceId)
    requires CollectorNext(sys, step, next)
    requires match step
             case LockSource(e) => e in sys.handles && sys.handles[e].source == Some(s)
             case FinishCollection(e, months) => e in sys.handles && sys.handles[e].source == Some(s)
             case CommitCheck(tx) => tx in sys.checks && sys.checks[tx].source == s
             case _ => false
    ensures s in sys.sources && sys.sources[s].enabled && sys.sources[s].customerActive && s !in sys.sourceLock
    ensures step.FinishCollection? ==> step.e.job !in sys.jobLock && Live(sys.jobs, CopyOf(step.e, sys.handles[step.e]), sys.now)
    ensures match step
            case LockSource(e) => sys.handles[e].loaded == Some(sys.sources[s].conn)
            case FinishCollection(e, months) => sys.handles[e].loaded == Some(sys.sources[s].conn)
            case CommitCheck(tx) => sys.checks[tx].conn == sys.sources[s].conn
            case _ => true
  {
    hide Live, DistinctSlices, Overlaps, BatchOf, Accounts, AfterCommitPublication, AfterFinish, AfterCommitCheck, AfterLockSource;
  }

  /** What is published lies in the source, the month and, of a connection to a single account, the
      account that the connection has at the commit. */
  lemma CommitsStayInScope(sys: System, step: CollectorStep, next: System)
    requires PublicationInv(sys) && CopyInv(sys) && CollectorNext(sys, step, next) && step.CommitPublication?
    ensures
      && step.e in sys.handles && sys.handles[step.e].source.Some? && sys.handles[step.e].phase.Checked?
      && var s := sys.handles[step.e].source.value;
      && s in sys.sources
      && forall r :: r in sys.handles[step.e].phase.batch ==>
           && r.source == s && r.day.month == sys.handles[step.e].phase.month
           && (sys.sources[s].conn.kind == Standalone ==> r.account == sys.sources[s].conn.account)
  {
    assert PublicationHolds(sys, step.e, sys.handles[step.e]) && CopyHolds(sys, step.e, sys.handles[step.e]);
    hide PublicationInv, CopyInv, Live, DistinctSlices, Overlaps, Accounts, AfterCommitPublication;
  }

  // --- Whole runs ----------------------------------------------------------------------------------

  /** As long as forms move forward, a connection that was there before a stop or a rotation never
      comes back after it. */
  lemma ConnectionNeverReturns(states: seq<System>, steps: seq<Step>, i: nat, k: nat, j: nat, s: SourceId)
    requires Run(states, steps) && i <= k < j < |states| && ForwardBetween(states, steps, i, j)
    requires s in states[i].sources && (Stops(steps[k], s) || Rotates(steps[k], s))
    ensures s in states[j].sources && states[j].sources[s].conn.version > states[i].sources[s].conn.version
  {
    hide QueueNext, OperatorNext, CollectorNext, Forward;
    VersionsGrowForward(states, steps, i, k);
    VersionsGrowForward(states, steps, k + 1, j);
    assert Next(states[k], steps[k], states[k + 1]);
    InvalidationEffect(states[k], steps[k], states[k + 1], s);
  }

  /** The thread is still there, with the source and the connection it had. */
  ghost predicate KeepsHandle(sys: System, next: System, e: Epoch)
    requires e in sys.handles
  {
    e in next.handles && next.handles[e].source == sys.handles[e].source && next.handles[e].loaded == sys.handles[e].loaded
  }

  lemma QueuesKeepHandles(sys: System, step: QueueStep, next: System, e: Epoch)
    requires CopyInv(sys) && QueueNext(sys, step, next) && e in sys.handles
    ensures KeepsHandle(sys, next, e)
  {
    assert CopyHolds(sys, e, sys.handles[e]);
    hide CopyInv, Heartbeat, Complete, Fail, Recover, Delay, CanEnqueue, CanIssue, CanRecover, LeasedSources, SourceLeased, Release;
  }

  lemma OperatorsKeepHandles(sys: System, step: OperatorStep, next: System, e: Epoch)
    requires OperatorNext(sys, step, next) && e in sys.handles
    ensures KeepsHandle(sys, next, e)
  {
    hide InScope, QueuedOf, CanDropQueued;
  }

  lemma CollectorsKeepHandles(sys: System, step: CollectorStep, next: System, e: Epoch)
    requires CollectorNext(sys, step, next) && e in sys.handles && step != LoadSource(e)
    ensures KeepsHandle(sys, next, e)
  {
    hide Live, Overlaps, BatchOf, Accounts, Replace, Release, DistinctSlices;
  }

  /** A thread keeps its source and what it loaded until it loads again. */
  lemma HandleStays(sys: System, step: Step, next: System, e: Epoch)
    requires CopyInv(sys) && Next(sys, step, next) && e in sys.handles && step != OfCollector(LoadSource(e))
    ensures KeepsHandle(sys, next, e)
  {
    hide CopyInv, QueueNext, OperatorNext, CollectorNext, KeepsHandle;
    match step
    case OfQueue(queue) => QueuesKeepHandles(sys, queue, next, e);
    case OfOperator(operator) => OperatorsKeepHandles(sys, operator, next, e);
    case OfCollector(collector) => CollectorsKeepHandles(sys, collector, next, e);
  }

  lemma {:induction false} LoadedStays(states: seq<System>, steps: seq<Step>, i: nat, j: nat, e: Epoch)
    requires Run(states, steps) && i <= j < |states| && e in states[i].handles
    requires forall m :: i <= m < j ==> steps[m] != OfCollector(LoadSource(e))
    ensures KeepsHandle(states[i], states[j], e)
    decreases j
  {
    hide Next, DataInv, TableInv, ClaimInv, CopyInv, PublicationInv, LeaseInv, RevisionInv, PullInv;
    if i < j {
      LoadedStays(states, steps, i, j - 1, e);
      Reachable(states, steps, j - 1);
      HandleStays(states[j - 1], steps[j - 1], states[j], e);
    }
  }

  lemma {:induction false} CheckStays(states: seq<System>, steps: seq<Step>, i: nat, j: nat, tx: nat)
    requires Run(states, steps) && i <= j < |states| && tx in states[i].checks
    requires forall m, s :: i <= m < j ==> steps[m] != OfCollector(LoadForCheck(tx, s))
    ensures tx in states[j].checks && states[j].checks[tx] == states[i].checks[tx]
    decreases j
  {
    hide QueueNext, OperatorNext, CollectorNext;
    if i < j {
      CheckStays(states, steps, i, j - 1, tx);
      var sys, step, next := states[j - 1], steps[j - 1], states[j];
      assert Next(sys, step, next);
      KeepsCheck(sys, step, next, tx);
    }
  }

  lemma QueuesKeepChecks(sys: System, step: QueueStep, next: System)
    requires QueueNext(sys, step, next)
    ensures next.checks == sys.checks
  {
    hide Heartbeat, Complete, Fail, Recover, Delay, CanEnqueue, CanIssue, CanRecover, LeasedSources, SourceLeased, Release, Claimed;
  }

  lemma KeepsCheck(sys: System, step: Step, next: System, tx: nat)
    requires Next(sys, step, next) && tx in sys.checks && forall s :: step != OfCollector(LoadForCheck(tx, s))
    ensures tx in next.checks && next.checks[tx] == sys.checks[tx]
  {
    hide QueueNext, OperatorNext, CollectorNext;
    match step
    case OfQueue(queue) => QueuesKeepChecks(sys, queue, next);
    case OfOperator(operator) => OperatorsKeepChecks(sys, operator, next);
    case OfCollector(collector) => CollectorsKeepChecks(sys, collector, next, tx);
  }

  lemma OperatorsKeepChecks(sys: System, step: OperatorStep, next: System)
    requires OperatorNext(sys, step, next)
    ensures next.checks == sys.checks
  {
    hide InScope, QueuedOf, CanDropQueued;
  }

  lemma CollectorsKeepChecks(sys: System, step: CollectorStep, next: System, tx: nat)
    requires CollectorNext(sys, step, next) && tx in sys.checks && forall s :: step != LoadForCheck(tx, s)
    ensures tx in next.checks && next.checks[tx] == sys.checks[tx]
  {
    hide Live, Overlaps, BatchOf, Accounts, Replace, Release, DistinctSlices;
  }

  /** Work a thread loaded before a stop or a rotation is never committed after it: no month is
      published and no run ends until the thread loads its source again. */
  lemma OldWorkNeverCommits(states: seq<System>, steps: seq<Step>, i: nat, k: nat, j: nat, e: Epoch, s: SourceId)
    requires Run(states, steps) && i < k < j < |steps| && ForwardBetween(states, steps, i, j)
    requires steps[i] == OfCollector(LoadSource(e)) && e in states[i].handles && states[i].handles[e].source == Some(s)
    requires Stops(steps[k], s) || Rotates(steps[k], s)
    requires forall m :: i < m < j ==> steps[m] != OfCollector(LoadSource(e))
    ensures steps[j] != OfCollector(CommitPublication(e)) && forall months :: steps[j] != OfCollector(FinishCollection(e, months))
  {
    Reachable(states, steps, j);
    hide QueueNext, OperatorNext, CollectorNext, DataInv, TableInv, ClaimInv, CopyInv, PublicationInv, LeaseInv, RevisionInv, PullInv, Forward;
    assert Next(states[i], steps[i], states[i + 1]) && Next(states[j], steps[j], states[j + 1]);
    hide Run;
    LoadedConnection(states[i], e, states[i + 1]);
    LoadedStays(states, steps, i + 1, j, e);
    ConnectionNeverReturns(states, steps, i, k, j, s);
    if steps[j].OfCollector? {
      if CommitsFor(states[j], steps[j], s) {
        CommitsAreCurrent(states[j], steps[j].collector, states[j + 1], s);
      }
    }
  }

  lemma LoadedConnection(sys: System, e: Epoch, next: System)
    requires CollectorNext(sys, LoadSource(e), next)
    ensures e in sys.handles && sys.handles[e].source.Some? && sys.handles[e].source.value in sys.sources
    ensures e in next.handles && next.handles[e].source == sys.handles[e].source
    ensures next.handles[e].loaded == Some(sys.sources[sys.handles[e].source.value].conn)
  {
  }

  /** The same of verification, discovery and budget import results. */
  lemma OldChecksNeverCommit(states: seq<System>, steps: seq<Step>, i: nat, k: nat, j: nat, tx: nat, s: SourceId)
    requires Run(states, steps) && i < k < j < |steps| && ForwardBetween(states, steps, i, j)
    requires steps[i] == OfCollector(LoadForCheck(tx, s)) && (Stops(steps[k], s) || Rotates(steps[k], s))
    requires forall m, t :: i < m < j ==> steps[m] != OfCollector(LoadForCheck(tx, t))
    ensures steps[j] != OfCollector(CommitCheck(tx))
  {
    assert Next(states[i], steps[i], states[i + 1]) && Next(states[j], steps[j], states[j + 1]);
    hide QueueNext, OperatorNext, Next, Forward;
    CheckStays(states, steps, i + 1, j, tx);
    ConnectionNeverReturns(states, steps, i, k, j, s);
  }

  lemma {:induction false} StaysDisabled(states: seq<System>, steps: seq<Step>, k: nat, j: nat, s: SourceId)
    requires Run(states, steps) && k <= j < |states| && s in states[k].sources && !states[k].sources[s].enabled
    requires forall m :: k <= m < j ==> !Enables(states[m], steps[m], s)
    ensures s in states[j].sources && !states[j].sources[s].enabled
    decreases j
  {
    hide Next, Enables;
    if k < j {
      StaysDisabled(states, steps, k, j - 1, s);
      hide Run;
      SourceChanges(states[j - 1], steps[j - 1], states[j], s);
    }
  }

  /** From a stop on nothing is committed for a source, whenever it was loaded, until it is enabled
      again. */
  lemma NothingAfterStop(states: seq<System>, steps: seq<Step>, k: nat, j: nat, s: SourceId)
    requires Run(states, steps) && k < j < |steps| && Stops(steps[k], s)
    requires forall m :: k < m < j ==> !Enables(states[m], steps[m], s)
    ensures !CommitsFor(states[j], steps[j], s)
  {
    assert Next(states[k], steps[k], states[k + 1]) && Next(states[j], steps[j], states[j + 1]);
    Reachable(states, steps, j);
    hide QueueNext, OperatorNext, CollectorNext, DataInv, TableInv, ClaimInv, CopyInv, PublicationInv, LeaseInv, RevisionInv, PullInv, Enables;
    InvalidationEffect(states[k], steps[k], states[k + 1], s);
    StaysDisabled(states, steps, k + 1, j, s);
    if CommitsFor(states[j], steps[j], s) {
      CommitsAreCurrent(states[j], steps[j].collector, states[j + 1], s);
    }
  }

  lemma EndedLease(sys: System, step: Step, next: System, e: Epoch, s: SourceId)
    requires Next(sys, step, next) && Stops(step, s)
    requires CopyInv(next) && e in next.handles && next.handles[e].source == Some(s)
    ensures !EpochCurrent(next.jobs, e)
  {
    InvalidationEffect(sys, step, next, s);
    assert CopyHolds(next, e, next.handles[e]);
    hide Next, CopyInv;
  }

  /** And a worker that held a lease of the source at a stop never publishes or finishes again,
      whatever forms are saved. */
  lemma StoppedWorkerNeverPublishes(states: seq<System>, steps: seq<Step>, k: nat, j: nat, e: Epoch, s: SourceId)
    requires Run(states, steps) && k < j < |steps| && Stops(steps[k], s)
    requires e in states[k].handles && states[k].handles[e].source == Some(s)
    ensures steps[j] != OfCollector(CommitPublication(e)) && forall months :: steps[j] != OfCollector(FinishCollection(e, months))
  {
    Reachable(states, steps, k);
    Reachable(states, steps, k + 1);
    assert Next(states[k], steps[k], states[k + 1]);
    hide QueueNext, OperatorNext, CollectorNext, DataInv, TableInv, ClaimInv, PublicationInv, LeaseInv, RevisionInv, PullInv, CopyInv, Next;
    HandleStays(states[k], steps[k], states[k + 1], e);
    EndedLease(states[k], steps[k], states[k + 1], e, s);
    StaleWorkerNeverPublishes(states, steps, k + 1, j, e);
  }

  // --- A form opened before a stop ------------------------------------------------------------------

  const STOPPED := OLD.(version := 4)
  const EDITED := OLD.(version := 4, roleArn := "new role")

  function SceneOf(source: Source, forms: map<nat, Form>): System {
    Scene(OLD, forms, map[], []).(sources := map[0 := source])
  }

  function Edited(): map<nat, Form> {
    map[0 := Compared(0, Source(true, true, OLD, true), "new role", {}, true)]
  }

  lemma StopAndEditedForm()
    ensures OperatorNext(SceneOf(Source(true, true, OLD, true), Open()), StopCustomer({0}), SceneOf(Source(false, true, STOPPED, true), Open()))
    ensures OperatorNext(SceneOf(Source(false, true, STOPPED, true), Open()), CompareForm(0, "new role", {}),
                         SceneOf(Source(false, true, STOPPED, true), Edited()))
    ensures OperatorNext(SceneOf(Source(false, true, STOPPED, true), Edited()), SaveForm(0), SceneOf(Source(true, true, EDITED, true), map[]))
  {
    var sys := SceneOf(Source(true, true, OLD, true), Open());
    assert AfterStop(sys, {0}).jobs == map[] && AfterStop(sys, {0}).sources == map[0 := Source(false, true, STOPPED, true)];
    assert AfterSaveForm(SceneOf(Source(false, true, STOPPED, true), Edited()), 0).forms == map[];
  }

  lemma FormOpened()
    ensures Initial(SceneOf(Source(true, true, OLD, true), map[]))
    ensures OperatorNext(SceneOf(Source(true, true, OLD, true), map[]), OpenForm(0, 0), SceneOf(Source(true, true, OLD, true), Open()))
  {
  }

  /** A form opened before a stop and saved edited after it enables the source again without lowering
      its version: what the stop did to work in progress lasts, what it did to the source does not. */
  lemma EditedFormUndoesStop() returns (states: seq<System>, steps: seq<Step>)
    ensures Run(states, steps) && |steps| == 4 && Stops(steps[1], 0) && ForwardBetween(states, steps, 0, 4)
    ensures 0 in states[2].sources && !states[2].sources[0].enabled
    ensures 0 in states[4].sources && states[4].sources[0].enabled && states[4].sources[0].conn == EDITED
  {
    FormOpened();
    StopAndEditedForm();
    var start := Source(true, true, OLD, true);
    var stopped := Source(false, true, STOPPED, true);
    steps := [OfOperator(OpenForm(0, 0)), OfOperator(StopCustomer({0})), OfOperator(CompareForm(0, "new role", {})), OfOperator(SaveForm(0))];
    states := [SceneOf(start, map[]), SceneOf(start, Open()), SceneOf(stopped, Open()), SceneOf(stopped, Edited()),
               SceneOf(Source(true, true, EDITED, true), map[])];
    hide OperatorNext, Initial;
  }
}
