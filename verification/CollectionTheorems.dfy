/** What holds in every run of the collection protocol. */
module CollectionTheorems {
  import opened Options
  import opened JobTable
  import opened Calendar
  import opened Protocol
  import opened ProtocolInvariants

  lemma {:induction false} Reachable(states: seq<System>, steps: seq<Step>, i: nat)
    requires Run(states, steps) && i < |states|
    ensures Inv(states[i]) && PullInv(states[i])
  {
    if i == 0 {
      InitialInv(states[0]);
    }
    hide Inv, PullInv, Next;
    if i == 0 {
    } else {
      Reachable(states, steps, i - 1);
      StepKept(states[i - 1], steps[i - 1], states[i]);
    }
  }

  // --- One step --------------------------------------------------------------------------------

  /** The epoch is the one its job is leased under now. */
  predicate EpochCurrent(jobs: Jobs, e: Epoch) {
    e.job in jobs && jobs[e.job].status == Leased && jobs[e.job].attempts == e.attempts
  }

  /** Versions do not fall, and sources are never lost. */
  ghost predicate VersionsGrow(sys: System, next: System) {
    forall s :: s in sys.sources ==> s in next.sources && sys.sources[s].conn.version <= next.sources[s].conn.version
  }

  /** The step saves no form with a lower version than the stored one. */
  predicate Forward(sys: System, step: Step) {
    step.OfOperator? && step.operator.SaveForm? && CanSaveForm(sys, step.operator.tx) ==>
      var f := sys.forms[step.operator.tx];
      sys.sources[f.source].conn.version <= FormRow(f, sys.sources[f.source]).conn.version
  }

  ghost predicate SameData(sys: System, next: System) {
    next.costs == sys.costs && next.pubs == sys.pubs
  }

  /** Nothing is published, no connection changes and no job goes. */
  ghost predicate LeavesData(sys: System, next: System) {
    next.sources == sys.sources && SameData(sys, next) && next.evidence == sys.evidence && sys.jobs.Keys <= next.jobs.Keys
  }

  lemma JobsLeaveData(sys: System, jobs: Jobs, nextJob: JobId)
    requires sys.jobs.Keys <= jobs.Keys
    ensures LeavesData(sys, sys.(jobs := jobs, nextJob := nextJob))
  {
  }

  predicate OfStatement(step: QueueStep) {
    step.Enqueue? || step.Coalesce? || step.Renew? || step.CompleteJob? || step.FailJob? || step.RecoverJob?
  }

  lemma StatementsLeaveData(sys: System, step: QueueStep, next: System)
    requires QueueNext(sys, step, next) && OfStatement(step)
    ensures LeavesData(sys, next)
  {
    hide Heartbeat, Complete, Fail, Recover, Delay, CanEnqueue, LeavesData, CanIssue, CanRecover;
    assert sys.jobs.Keys <= next.jobs.Keys && next == sys.(jobs := next.jobs, nextJob := next.nextJob);
    hide QueueNext;
    JobsLeaveData(sys, next.jobs, next.nextJob);
  }

  lemma PullsLeaveData(sys: System, step: QueueStep, next: System)
    requires QueueNext(sys, step, next) && OfPull(step)
    ensures LeavesData(sys, next)
  {
    hide Release;
  }

  lemma QueueStepsLeaveData(sys: System, step: QueueStep, next: System)
    requires QueueNext(sys, step, next)
    ensures LeavesData(sys, next)
  {
    if OfStatement(step) {
      StatementsLeaveData(sys, step, next);
      hide QueueNext;
    } else if OfPull(step) {
      PullsLeaveData(sys, step, next);
      hide QueueNext;
    } else {
      hide Claimed, LeasedSources, Release, SourceLeased;
    }
  }

  lemma OperatorStepsLeaveData(sys: System, step: OperatorStep, next: System)
    requires OperatorNext(sys, step, next)
    ensures VersionsGrow(sys, next) <==> Forward(sys, OfOperator(step))
    ensures SameData(sys, next) && next.evidence == sys.evidence
  {
    if step.SaveForm? {
      var f := sys.forms[step.tx];
      assert next.sources[f.source] == FormRow(f, sys.sources[f.source]);
    }
  }

  lemma CollectorStepsLeaveData(sys: System, step: CollectorStep, next: System)
    requires CollectorNext(sys, step, next)
    ensures VersionsGrow(sys, next)
    ensures !step.CommitPublication? ==> SameData(sys, next)
    ensures next.jobs == sys.jobs
    ensures sys.evidence <= next.evidence && |next.evidence| <= |sys.evidence| + 1
    ensures forall k :: |sys.evidence| <= k < |next.evidence| ==>
              && next.evidence[k].source in sys.sources
              && next.evidence[k].version == sys.sources[next.evidence[k].source].conn.version
  {
    hide Live, Overlaps, BatchOf, Accounts, Replace, Release, DistinctSlices;
  }

  /** Saving a form that was loaded before is the only way to lower a version, and a commit is the
      only step that changes the cost table or the log of publications: a failed, rejected or
      interrupted month writes nothing. */
  lemma OnlyCommitsPublish(sys: System, step: Step, next: System)
    requires Next(sys, step, next)
    ensures VersionsGrow(sys, next) <==> Forward(sys, step)
    ensures (step.OfCollector? && step.collector.CommitPublication?) || SameData(sys, next)
    ensures sys.evidence <= next.evidence && |next.evidence| <= |sys.evidence| + 1
    ensures forall k :: |sys.evidence| <= k < |next.evidence| ==>
              && next.evidence[k].source in sys.sources
              && next.evidence[k].version == sys.sources[next.evidence[k].source].conn.version
  {
    hide QueueNext, OperatorNext, CollectorNext;
    match step
    case OfQueue(queue) =>
      QueueStepsLeaveData(sys, queue, next);
      hide SameData;
    case OfOperator(operator) =>
      OperatorStepsLeaveData(sys, operator, next);
      hide Forward, VersionsGrow;
    case OfCollector(collector) => CollectorStepsLeaveData(sys, collector, next);
  }

  /** One publication: the month of the source becomes the batch, every other row and period
      stays, and the stored revision rises by exactly one although the transaction wrote a
      number it had read before taking any lock. */
  lemma PublicationReplacesMonth(sys: System, e: Epoch)
    requires Inv(sys) && CanCommitPublication(sys, e)
    ensures
      var next := AfterCommitPublication(sys, e);
      var s, m, batch := sys.handles[e].source.value, sys.handles[e].phase.month, sys.handles[e].phase.batch;
      && EpochCurrent(sys.jobs, e)
      && (s, m) in sys.periods
      && next.periods[(s, m)] == Period(sys.periods[(s, m)].revision + 1, |batch|)
      && (forall k :: k in sys.periods && k != (s, m) ==> k in next.periods && next.periods[k] == sys.periods[k])
      && (forall r :: r in next.costs <==> if InMonth(r, s, m) then r in batch else r in sys.costs)
      && |next.pubs| == |sys.pubs| + 1 && sys.pubs <= next.pubs
      && next.pubs[|sys.pubs|] == Publication(e, sys.handles[e].ticket, s, m, batch, next.periods[(s, m)].revision,
                                              sys.handles[e].loaded.value.version)
  {
    assert PublicationHolds(sys, e, sys.handles[e]);
    assert CopyHolds(sys, e, sys.handles[e]) && RevisionHolds(sys, e, sys.handles[e]);
  }

  /** Whatever a worker whose epoch is over does, it changes no job row and cannot get past
      the checks of a publication or of the end of a collection. */
  lemma StaleWorkerIsHarmless(sys: System, e: Epoch, save: bool, permanent: bool, delay: int, months: set<Month>)
    requires Inv(sys) && e in sys.handles && !EpochCurrent(sys.jobs, e)
    ensures CanIssue(sys, e) ==>
              && AfterRenew(sys, e, save) == sys
              && AfterComplete(sys, e) == sys
              && AfterFail(sys, e, permanent, delay) == sys
    ensures !CanLockJob(sys, e) && !CanLockSource(sys, e) && !CanCommitPublication(sys, e) && !CanFinish(sys, e, months)
  {
    assert PublicationHolds(sys, e, sys.handles[e]);
    hide Inv;
  }

  lemma StaleWorkerStep(sys: System, step: CollectorStep, next: System, e: Epoch)
    requires Inv(sys) && CollectorNext(sys, step, next)
    requires e in sys.handles && !EpochCurrent(sys.jobs, e)
    ensures step != CommitPublication(e)
    ensures forall months :: step != FinishCollection(e, months)
  {
    forall months
      ensures !CanCommitPublication(sys, e) && !CanFinish(sys, e, months)
    {
      StaleWorkerIsHarmless(sys, e, false, false, 0, months);
    }
    hide Inv, CanCommitPublication, CanFinish;
  }

  /** A job that goes back to the queue waits: it was given up by its worker or by recovery, and its
      next attempt comes a minute to an hour and a half later, the longer the more attempts it had.
      Its lease is over, and months it lists as completed are its worker's or stay. */
  lemma RequeuedJobWaits(states: seq<System>, steps: seq<Step>, i: nat, id: JobId)
    requires Run(states, steps) && i < |steps| && id in states[i].jobs && id in states[i + 1].jobs
    requires states[i].jobs[id].status == Leased && states[i + 1].jobs[id].status == Queued
    ensures GivenUp(states[i + 1].jobs[id], states[i].now, states[i].jobs[id].attempts)
    ensures
      var sys, e := states[i], Epoch(id, states[i].jobs[id].attempts);
      || states[i + 1].jobs[id].completed == sys.jobs[id].completed
      || (e in sys.handles && states[i + 1].jobs[id].completed == sys.handles[e].completed)
  {
    hide Next, DataInv, ClaimInv, CopyInv, PublicationInv, LeaseInv, RevisionInv, GivenUp;
    Reachable(states, steps, i);
    RequeuedByStep(states[i], steps[i], states[i + 1], id);
  }

  lemma RequeuedByStep(sys: System, step: Step, next: System, id: JobId)
    requires Next(sys, step, next) && id in sys.jobs && id in next.jobs && id < sys.nextJob
    requires sys.jobs[id].status == Leased && next.jobs[id].status == Queued
    ensures GivenUp(next.jobs[id], sys.now, sys.jobs[id].attempts)
    ensures
      var e := Epoch(id, sys.jobs[id].attempts);
      || next.jobs[id].completed == sys.jobs[id].completed
      || (e in sys.handles && next.jobs[id].completed == sys.handles[e].completed)
  {
    hide QueueNext, OperatorNext, CollectorNext, GivenUp;
    match step
    case OfQueue(queue) => RequeuedByStatement(sys, queue, next, id);
    case OfOperator(operator) => OperatorsRequeueNothing(sys, operator, next, id);
    case OfCollector(collector) => CollectorStepsLeaveData(sys, collector, next);
  }

  lemma OperatorsRequeueNothing(sys: System, step: OperatorStep, next: System, id: JobId)
    requires OperatorNext(sys, step, next) && id in sys.jobs && id in next.jobs && sys.jobs[id].status == Leased
    ensures next.jobs[id].status != Queued
  {
  }

  lemma RequeuedByStatement(sys: System, step: QueueStep, next: System, id: JobId)
    requires QueueNext(sys, step, next) && id in sys.jobs && id in next.jobs && id < sys.nextJob
    requires sys.jobs[id].status == Leased && next.jobs[id].status == Queued
    ensures GivenUp(next.jobs[id], sys.now, sys.jobs[id].attempts)
    ensures
      var e := Epoch(id, sys.jobs[id].attempts);
      || next.jobs[id].completed == sys.jobs[id].completed
      || (e in sys.handles && next.jobs[id].completed == sys.handles[e].completed)
  {
    hide Delay, CanEnqueue, GivenUp, Release, LeasedSources, SourceLeased, CanBeginPull, CanPickRow, CanHoldSource;
    match step
    case FailJob(e, permanent, delay) =>
      hide JobTable.Fail;
      FailureWaits(sys.jobs, CopyOf(e, sys.handles[e]), sys.now, permanent, delay, sys.handles[e].completed);
    case RecoverJob(k, seen, delay) =>
      hide JobTable.Recover;
      RecoveryWaits(sys.jobs, k, seen, sys.now, delay);
    case _ =>
  }

  // --- Whole runs ----------------------------------------------------------------------------------

  /** At most one leased job per source and one active job per key, in every reachable state,
      although a lease transaction filters on a list of busy sources that may be out of date. */
  lemma OneLeasePerSourceAndKey(states: seq<System>, steps: seq<Step>, i: nat)
    requires Run(states, steps) && i < |states|
    ensures OneLeasePerSource(states[i].jobs) && KeysUnique(states[i].jobs)
  {
    hide Next;
    Reachable(states, steps, i);
  }

  /** A done or failed job is never written or deleted again. */
  lemma {:induction false} TerminalJobsStay(states: seq<System>, steps: seq<Step>, i: nat, j: nat, id: JobId)
    requires Run(states, steps) && i <= j < |states|
    requires id in states[i].jobs && states[i].jobs[id].Terminal()
    ensures id in states[j].jobs && states[j].jobs[id] == states[i].jobs[id]
    decreases j
  {
    hide Inv, PullInv, Next;
    if i < j {
      TerminalJobsStay(states, steps, i, j - 1, id);
      Reachable(states, steps, j - 1);
      StepKept(states[j - 1], steps[j - 1], states[j]);
    }
  }

  lemma StaleStep(sys: System, next: System, e: Epoch)
    requires Inv(sys) && Evolves(sys, next)
    requires e in sys.handles && !EpochCurrent(sys.jobs, e)
    ensures e in next.handles && !EpochCurrent(next.jobs, e)
  {
    assert CopyHolds(sys, e, sys.handles[e]);
    hide Inv;
  }

  /** An epoch that is over stays over: the job is deleted, terminal, queued or leased again
      under a higher count. */
  lemma {:induction false} StaleStaysStale(states: seq<System>, steps: seq<Step>, i: nat, j: nat, e: Epoch)
    requires Run(states, steps) && i <= j < |states|
    requires e in states[i].handles && !EpochCurrent(states[i].jobs, e)
    ensures e in states[j].handles && !EpochCurrent(states[j].jobs, e)
    decreases j
  {
    hide Inv, PullInv, Next;
    if i < j {
      StaleStaysStale(states, steps, i, j - 1, e);
      Reachable(states, steps, j - 1);
      StepKept(states[j - 1], steps[j - 1], states[j]);
      StaleStep(states[j - 1], states[j], e);
    }
  }

  /** So once a lease was recovered, cancelled, given up or granted anew, the worker that held
      it publishes nothing and finishes nothing, in whatever order the steps interleave. */
  lemma StaleWorkerNeverPublishes(states: seq<System>, steps: seq<Step>, i: nat, j: nat, e: Epoch)
    requires Run(states, steps) && i <= j < |steps|
    requires e in states[i].handles && !EpochCurrent(states[i].jobs, e)
    ensures steps[j] != OfCollector(CommitPublication(e))
    ensures forall months :: steps[j] != OfCollector(FinishCollection(e, months))
  {
    hide Inv, QueueNext, OperatorNext, CollectorNext;
    StaleStaysStale(states, steps, i, j, e);
    Reachable(states, steps, j);
    assert Next(states[j], steps[j], states[j + 1]);
    if steps[j].OfCollector? {
      StaleWorkerStep(states[j], steps[j].collector, states[j + 1], e);
    }
  }

  /** Publications of one source happen in the order of the leases they were made under, each
      under a lease of that source. */
  lemma PublicationsFollowLeases(states: seq<System>, steps: seq<Step>, i: nat, a: nat, b: nat)
    requires Run(states, steps) && i < |states|
    requires a < b < |states[i].pubs| && states[i].pubs[a].source == states[i].pubs[b].source
    ensures
      var p, q, leases := states[i].pubs[a], states[i].pubs[b], states[i].leases;
      && p.ticket <= q.ticket < |leases|
      && leases[p.ticket] == LeaseRecord(p.epoch, Some(p.source))
      && leases[q.ticket] == LeaseRecord(q.epoch, Some(q.source))
  {
    hide Next;
    Reachable(states, steps, i);
  }

  /** The cost table is the union, over sources and months, of the last published batches; a
      period counts its publications and the rows it stores. */
  lemma CostsAreLastPublications(states: seq<System>, steps: seq<Step>, i: nat)
    requires Run(states, steps) && i < |states|
    ensures forall r :: r in states[i].costs <==> r in Latest(states[i].pubs, r.source, r.day.month)
    ensures forall s: SourceId, m: Month :: (s, m) in states[i].periods ==>
              && states[i].periods[(s, m)].revision == Publications(states[i].pubs, s, m)
              && states[i].periods[(s, m)].rows == |set r | r in states[i].costs && InMonth(r, s, m)|
  {
    hide Next;
    Reachable(states, steps, i);
    forall s: SourceId, m: Month | (s, m) in states[i].periods
      ensures states[i].periods[(s, m)].rows == |set r | r in states[i].costs && InMonth(r, s, m)|
    {
      LatestInMonth(states[i], s, m);
    }
  }

  lemma LatestInMonth(sys: System, s: SourceId, m: Month)
    requires Inv(sys)
    ensures Latest(sys.pubs, s, m) == set r | r in sys.costs && InMonth(r, s, m)
  {
    forall r | r in Latest(sys.pubs, s, m)
      ensures InMonth(r, s, m)
    {
      LatestRows(sys.pubs, s, m, r);
    }
  }

  ghost predicate PubsInMonth(pubs: seq<Publication>) {
    forall i, r :: 0 <= i < |pubs| && r in pubs[i].batch ==> InMonth(r, pubs[i].source, pubs[i].month)
  }

  lemma {:induction false} LatestRows(pubs: seq<Publication>, s: SourceId, m: Month, r: CostRow)
    requires PubsInMonth(pubs) && r in Latest(pubs, s, m)
    ensures InMonth(r, s, m)
  {
    if !(pubs[|pubs| - 1].source == s && pubs[|pubs| - 1].month == m) {
      LatestRows(pubs[..|pubs| - 1], s, m, r);
    }
  }

  /** No account and day is ever stored for two sources, first imports included. */
  lemma OneSourcePerAccountAndDay(states: seq<System>, steps: seq<Step>, i: nat, a: CostRow, b: CostRow)
    requires Run(states, steps) && i < |states|
    requires a in states[i].costs && b in states[i].costs && a.account == b.account && a.day == b.day
    ensures a.source == b.source
  {
    hide Next;
    Reachable(states, steps, i);
  }

  ghost predicate ForwardBetween(states: seq<System>, steps: seq<Step>, i: nat, j: nat)
    requires |states| == |steps| + 1 && i <= j < |states|
  {
    forall k :: i <= k < j ==> Forward(states[k], steps[k])
  }

  lemma {:induction false} VersionsGrowForward(states: seq<System>, steps: seq<Step>, i: nat, j: nat)
    requires Run(states, steps) && i <= j < |states| && ForwardBetween(states, steps, i, j)
    ensures VersionsGrow(states[i], states[j])
    decreases j
  {
    hide Next, Forward;
    if i < j {
      VersionsGrowForward(states, steps, i, j - 1);
      assert Next(states[j - 1], steps[j - 1], states[j]) && Forward(states[j - 1], steps[j - 1]);
      OnlyCommitsPublish(states[j - 1], steps[j - 1], states[j]);
    }
  }

  /** Connection versions grow throughout a run exactly if no saved form writes a lower version
      than the stored one. */
  lemma VersionsGrowExactly(states: seq<System>, steps: seq<Step>)
    requires Run(states, steps)
    ensures ForwardBetween(states, steps, 0, |steps|) <==> forall i, j :: 0 <= i <= j < |states| ==> VersionsGrow(states[i], states[j])
  {
    hide Next, Forward, VersionsGrow;
    if ForwardBetween(states, steps, 0, |steps|) {
      forall i: nat, j: nat | i <= j < |states|
        ensures VersionsGrow(states[i], states[j])
      {
        VersionsGrowForward(states, steps, i, j);
      }
    }
    if forall i, j :: 0 <= i <= j < |states| ==> VersionsGrow(states[i], states[j]) {
      forall k | 0 <= k < |steps|
        ensures Forward(states[k], steps[k])
      {
        assert Next(states[k], steps[k], states[k + 1]);
        OnlyCommitsPublish(states[k], steps[k], states[k + 1]);
      }
    }
  }

  /** As long as no saved form lowers a version, work loaded before a version bump never publishes
      after it: whatever is published after a state was loaded at that state's version or a later one. */
  lemma {:induction false} NothingOldIsPublished(states: seq<System>, steps: seq<Step>, i: nat, j: nat, k: nat)
    requires Run(states, steps) && i <= j < |states| && ForwardBetween(states, steps, i, j)
    requires |states[i].pubs| <= k < |states[j].pubs|
    requires states[j].pubs[k].source in states[i].sources
    ensures states[j].pubs[k].version >= states[i].sources[states[j].pubs[k].source].conn.version
    decreases j
  {
    hide Inv, PullInv, Next, Forward;
    if i < j {
      Reachable(states, steps, j - 1);
      VersionsGrowForward(states, steps, i, j - 1);
      assert Next(states[j - 1], steps[j - 1], states[j]);
      CommittedVersion(states[j - 1], steps[j - 1], states[j]);
      if k < |states[j - 1].pubs| {
        NothingOldIsPublished(states, steps, i, j - 1, k);
      }
    }
  }

  /** The same for verification, discovery and budget import results. */
  lemma {:induction false} NoOldEvidence(states: seq<System>, steps: seq<Step>, i: nat, j: nat, k: nat)
    requires Run(states, steps) && i <= j < |states| && ForwardBetween(states, steps, i, j)
    requires |states[i].evidence| <= k < |states[j].evidence|
    requires states[j].evidence[k].source in states[i].sources
    ensures states[j].evidence[k].version >= states[i].sources[states[j].evidence[k].source].conn.version
    decreases j
  {
    hide Inv, PullInv, Next, Forward;
    if i < j {
      VersionsGrowForward(states, steps, i, j - 1);
      assert Next(states[j - 1], steps[j - 1], states[j]);
      OnlyCommitsPublish(states[j - 1], steps[j - 1], states[j]);
      if k < |states[j - 1].evidence| {
        NoOldEvidence(states, steps, i, j - 1, k);
      }
    }
  }

  const OLD := Connection(3, 0, "111111111111", "role", "old external id", Standalone, false, {})
  const NEW := Connection(4, 0, "111111111111", "role", "new external id", Standalone, false, {})

  /** One connection, no job, and what is open beside it. */
  function Scene(conn: Connection, forms: map<nat, Form>, checks: map<nat, Check>, evidence: seq<Evidence>): System {
    System(0, map[], 0, map[0 := Source(true, true, conn, true)], {}, map[], map[], map[], forms, map[], checks, map[], map[], map[],
           [], [], evidence, [])
  }

  function Open(): map<nat, Form> {
    map[0 := Opened(0, Source(true, true, OLD, true))]
  }

  function Unedited(): map<nat, Form> {
    map[0 := Compared(0, Source(true, true, OLD, true), "role", {}, false)]
  }

  lemma FormAndCheckLoaded()
    ensures Initial(Scene(OLD, map[], map[], []))
    ensures OperatorNext(Scene(OLD, map[], map[], []), OpenForm(0, 0), Scene(OLD, Open(), map[], []))
    ensures CollectorNext(Scene(OLD, Open(), map[], []), LoadForCheck(0, 0), Scene(OLD, Open(), map[0 := Check(0, OLD)], []))
  {
  }

  lemma RotationAndOldForm()
    ensures OperatorNext(Scene(OLD, Open(), map[0 := Check(0, OLD)], []), Rotate(0, "new external id"),
                         Scene(NEW, Open(), map[0 := Check(0, OLD)], []))
    ensures OperatorNext(Scene(NEW, Open(), map[0 := Check(0, OLD)], []), CompareForm(0, "role", {}),
                         Scene(NEW, Unedited(), map[0 := Check(0, OLD)], []))
    ensures OperatorNext(Scene(NEW, Unedited(), map[0 := Check(0, OLD)], []), SaveForm(0), Scene(OLD, map[], map[0 := Check(0, OLD)], []))
    ensures CollectorNext(Scene(OLD, map[], map[0 := Check(0, OLD)], []), CommitCheck(0),
                          Scene(OLD, map[], map[0 := Check(0, OLD)], [Evidence(0, 3)]))
  {
    var sys := Scene(OLD, Open(), map[0 := Check(0, OLD)], []);
    assert AfterDropQueued(sys, 0).jobs == map[];
    assert AfterSaveForm(Scene(NEW, Unedited(), map[0 := Check(0, OLD)], []), 0).forms == map[];
  }

  /** A form opened before a rotation and saved unedited after it brings back the old version and
      the old external id; what a worker loaded before the rotation passes the check of a
      publication again, and its result is recorded. */
  lemma OldFormLetsOldWorkThrough() returns (states: seq<System>, steps: seq<Step>)
    ensures Run(states, steps) && |steps| == 6 && steps[1] == OfCollector(LoadForCheck(0, 0))
    ensures 0 in states[3].sources && states[3].sources[0].conn == NEW && steps[4] == OfOperator(SaveForm(0))
    ensures SourceUnchanged(states[5], 0, OLD) && states[6].evidence == [Evidence(0, 3)]
  {
    FormAndCheckLoaded();
    RotationAndOldForm();
    hide OperatorNext, CollectorNext, Initial;
    steps := [OfOperator(OpenForm(0, 0)), OfCollector(LoadForCheck(0, 0)), OfOperator(Rotate(0, "new external id")),
              OfOperator(CompareForm(0, "role", {})), OfOperator(SaveForm(0)), OfCollector(CommitCheck(0))];
    var check := map[0 := Check(0, OLD)];
    states := [Scene(OLD, map[], map[], []), Scene(OLD, Open(), map[], []), Scene(OLD, Open(), check, []), Scene(NEW, Open(), check, []),
               Scene(NEW, Unedited(), check, []), Scene(OLD, map[], check, []), Scene(OLD, map[], check, [Evidence(0, 3)])];
  }

  /** A commit appends one publication, made with the version its source has at the commit. */
  lemma CommittedVersion(sys: System, step: Step, next: System)
    requires Inv(sys) && Next(sys, step, next)
    ensures sys.pubs <= next.pubs && |next.pubs| <= |sys.pubs| + 1
    ensures forall k :: |sys.pubs| <= k < |next.pubs| ==>
              && next.pubs[k].source in sys.sources
              && next.pubs[k].version == sys.sources[next.pubs[k].source].conn.version
  {
    OnlyCommitsPublish(sys, step, next);
    hide QueueNext, OperatorNext, DataInv, TableInv, ClaimInv, CopyInv, LeaseInv, RevisionInv;
    if step.OfCollector? && step.collector.CommitPublication? {
      var e := step.collector.e;
      assert PublicationHolds(sys, e, sys.handles[e]);
    }
  }

  /** When a collection run reports success, every month it was asked for was published for its source under
      some lease of the same job, whatever crashes and resumed progress came before; the same
      holds of every month a job row or a worker lists as completed. */
  lemma CollectedMonthsWerePublished(states: seq<System>, steps: seq<Step>, i: nat, k: nat, m: Month)
    requires Run(states, steps) && i < |states|
    requires k < |states[i].collected| && m in states[i].collected[k].months
    ensures
      var run := states[i].collected[k];
      exists p :: p in states[i].pubs && p.epoch.job == run.epoch.job && p.source == run.source && p.month == m
  {
    hide Next;
    Reachable(states, steps, i);
  }

  lemma CompletedMonthsWerePublished(states: seq<System>, steps: seq<Step>, i: nat, id: JobId, m: Month)
    requires Run(states, steps) && i < |states|
    requires id in states[i].jobs && m in states[i].jobs[id].completed
    ensures states[i].jobs[id].source.Some?
    ensures exists p :: p in states[i].pubs && p.epoch.job == id && Some(p.source) == states[i].jobs[id].source && p.month == m
  {
    hide Next;
    Reachable(states, steps, i);
  }

  /** Widening cannot race with a lease. The pull chose the job under the lock of its source and
      writes without looking at the status again; when it writes, the job is still queued, unless
      it was dropped meanwhile, which takes no lock of the source and makes the write fail. */
  lemma WidenedJobIsQueued(states: seq<System>, steps: seq<Step>, i: nat, tx: nat, monthsBack: nat)
    requires Run(states, steps) && i < |steps| && steps[i] == OfQueue(WritePull(tx, monthsBack))
    ensures
      var sys, next := states[i], states[i + 1];
      && tx in sys.pulls && sys.pulls[tx].Chosen?
      && var id, s := sys.pulls[tx].job, sys.pulls[tx].source;
      if id in sys.jobs then
        && sys.jobs[id].status == Queued && sys.jobs[id].source == Some(s)
        && next.jobs == sys.jobs[id := sys.jobs[id].(monthsBack := monthsBack, version := Some(sys.sources[s].conn.version))]
      else next.jobs == sys.jobs
  {
    Reachable(states, steps, i);
    assert Next(states[i], steps[i], states[i + 1]);
    assert PullHolds(states[i], tx, states[i].pulls[tx]);
    hide Run, Inv, PullInv;
  }

  /** The job a pull chooses is queued work of its source for the current version or for none; choosing it
      changes nothing else. */
  lemma ChosenJobIsPending(sys: System, tx: nat, id: JobId, next: System)
    requires QueueNext(sys, ChooseJob(tx, id), next)
    ensures
      && tx in sys.pulls && sys.pulls[tx].Holding? && sys.pulls[tx].source in sys.sources && id in sys.jobs
      && var s := sys.pulls[tx].source;
      && sys.jobs[id].status == Queued && sys.jobs[id].source == Some(s)
      && (sys.jobs[id].version.Some? ==> sys.jobs[id].version.value == sys.sources[s].conn.version)
      && next == sys.(pulls := sys.pulls[tx := Chosen(s, id)])
  {
  }

  /** The write finds no row only if the job was dropped: a job that is there when the pull chooses
      it and is not dropped is there and queued as long as the pull goes on. */
  lemma {:induction false} ChosenJobStays(states: seq<System>, steps: seq<Step>, i: nat, j: nat, tx: nat)
    requires Run(states, steps) && i <= j < |states|
    requires tx in states[i].pulls && forall k :: i <= k <= j ==> tx in states[k].pulls && states[k].pulls[tx] == states[i].pulls[tx]
    requires states[i].pulls[tx].Chosen? && states[i].pulls[tx].job in states[i].jobs
    requires forall k :: i <= k < j && steps[k].OfOperator? ==>
               steps[k].operator != DropQueued(states[i].pulls[tx].source)
    ensures states[i].pulls[tx].job in states[j].jobs && states[j].jobs[states[i].pulls[tx].job].status == Queued
    decreases j
  {
    hide Inv, Next, QueueNext, OperatorNext, CollectorNext;
    Reachable(states, steps, j);
    assert PullHolds(states[j], tx, states[j].pulls[tx]);
    if i < j {
      ChosenJobStays(states, steps, i, j - 1, tx);
      Reachable(states, steps, j - 1);
      assert PullHolds(states[j - 1], tx, states[j - 1].pulls[tx]);
      assert Next(states[j - 1], steps[j - 1], states[j]);
      hide PullInv, Run;
      OnlyDropsDelete(states[j - 1], steps[j - 1], states[j], states[i].pulls[tx].job, states[i].pulls[tx].source);
    }
  }

  /** Only dropping the queued jobs of its source deletes a job; a rotation does so too, but needs
      the source row, which the pull holds. */
  lemma OnlyDropsDelete(sys: System, step: Step, next: System, id: JobId, s: SourceId)
    requires Next(sys, step, next) && id in sys.jobs && sys.jobs[id].source == Some(s)
    requires s in sys.sourceLock && step != OfOperator(DropQueued(s))
    ensures id in next.jobs
  {
    hide QueueNext, OperatorNext, CollectorNext, SameData;
    match step
    case OfQueue(queue) => QueueStepsLeaveData(sys, queue, next);
    case OfOperator(operator) => OperatorStepsDelete(sys, operator, next, id, s);
    case OfCollector(collector) =>
      CollectorStepsLeaveData(sys, collector, next);
  }

  lemma OperatorStepsDelete(sys: System, step: OperatorStep, next: System, id: JobId, s: SourceId)
    requires OperatorNext(sys, step, next) && id in sys.jobs && sys.jobs[id].source == Some(s)
    requires s in sys.sourceLock && step != DropQueued(s)
    ensures id in next.jobs
  {
    hide InScope, FormRow, CanDropQueued;
  }

  /** So a worker whose lease is current has the months and the version that its row has. */
  lemma PayloadIsCurrent(states: seq<System>, steps: seq<Step>, i: nat, e: Epoch)
    requires Run(states, steps) && i < |states|
    requires e in states[i].handles && EpochCurrent(states[i].jobs, e)
    ensures
      var row, copy := states[i].jobs[e.job], states[i].handles[e];
      row.monthsBack == copy.monthsBack && row.version == copy.version && row.source == copy.source
  {
    hide Next;
    Reachable(states, steps, i);
    assert CopyHolds(states[i], e, states[i].handles[e]);
  }

  /** A job is leased as often as its attempts say and never more often than allowed, although
      the lease statement does not test the bound. */
  lemma LeasesAreBounded(states: seq<System>, steps: seq<Step>, i: nat, id: JobId)
    requires Run(states, steps) && i < |states| && id in states[i].jobs
    ensures Leases(states[i].leases, id) == states[i].jobs[id].attempts <= states[i].jobs[id].maxAttempts
    ensures states[i].jobs[id].status == Queued ==> states[i].jobs[id].attempts < states[i].jobs[id].maxAttempts
  {
    hide Next;
    Reachable(states, steps, i);
  }

  /** Each lease and each requeue uses up attempts that are never given back. */
  lemma AttemptsRunOut(states: seq<System>, steps: seq<Step>, i: nat, id: JobId)
    requires Run(states, steps) && i < |steps|
    requires id in states[i].jobs && id in states[i + 1].jobs
    requires states[i].jobs[id].Active() && states[i + 1].jobs[id].Active()
    requires states[i].jobs[id].status != states[i + 1].jobs[id].status
    ensures 0 <= Budget(states[i + 1].jobs[id]) < Budget(states[i].jobs[id])
  {
    hide Next, DataInv, ClaimInv, CopyInv, PublicationInv, LeaseInv, RevisionInv;
    Reachable(states, steps, i);
    Reachable(states, steps, i + 1);
    StepKept(states[i], steps[i], states[i + 1]);
  }
}
