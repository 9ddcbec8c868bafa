/** The durable queue as its callers use it: enqueue or coalesce, lease the next runnable
    job, the statements of a leased job, and crash recovery. */
module JobQueue {
  import opened Options
  import opened JobTable

  /** `ORDER BY priority, run_after, pk`. */
  predicate Precedes(jobs: Jobs, a: JobId, b: JobId)
    requires a in jobs && b in jobs
  {
    || jobs[a].priority < jobs[b].priority
    || (jobs[a].priority == jobs[b].priority && jobs[a].runAfter < jobs[b].runAfter)
    || (jobs[a].priority == jobs[b].priority && jobs[a].runAfter == jobs[b].runAfter && a <= b)
  }

  /** It orders the jobs of a table totally: the more urgent priority first, then the earlier time, then
      the older job. */
  lemma QueueOrder(jobs: Jobs, a: JobId, b: JobId)
    requires a in jobs && b in jobs
    ensures jobs[a].priority < jobs[b].priority ==> Precedes(jobs, a, b)
    ensures jobs[a].priority == jobs[b].priority && jobs[a].runAfter < jobs[b].runAfter ==> Precedes(jobs, a, b)
    ensures jobs[a].priority == jobs[b].priority && jobs[a].runAfter == jobs[b].runAfter && a <= b ==> Precedes(jobs, a, b)
    ensures Precedes(jobs, a, b) && Precedes(jobs, b, a) <==> a == b
  {
  }

  /** Row of the candidate query; `busy` is the list of leased sources read before it. */
  predicate Candidate(jobs: Jobs, id: JobId, now: Time, kinds: set<string>, busy: set<SourceId>) {
    && id in jobs
    && jobs[id].status == Queued
    && jobs[id].runAfter <= now
    && (kinds == {} || jobs[id].kind in kinds)
    && (jobs[id].source.Some? ==> jobs[id].source.value !in busy)
  }

  /** A candidate without a source, or whose source row can be locked and has no leased job. */
  ghost predicate Claimable(jobs: Jobs, id: JobId, now: Time, kinds: set<string>, busy: set<SourceId>,
                            lockable: set<SourceId>) {
    && Candidate(jobs, id, now, kinds, busy)
    && (jobs[id].source.Some? ==>
          jobs[id].source.value in lockable && !SourceLeased(jobs, jobs[id].source.value))
  }

  /** The row `recover_expired` leaves behind, given the delay drawn for it. */
  function Recovered(j: Job, now: Time, delay: int): Job {
    j.(status := if j.attempts >= j.maxAttempts then Failed else Queued, leaseExpires := None, runAfter := now + delay)
  }

  predicate Expired(j: Job, now: Time) {
    j.status == Leased && j.leaseExpires.Some? && j.leaseExpires.value < now
  }

  ghost predicate TableValid(jobs: Jobs, nextJob: JobId) {
    && Bounded(jobs) && KeysUnique(jobs) && OneLeasePerSource(jobs)
    && forall id :: id in jobs ==> id < nextJob
  }

  /** Rewriting one row keeps the table valid when the row neither becomes leased nor active. */
  lemma RewriteKeepsTable(jobs: Jobs, nextJob: JobId, id: JobId, row: Job)
    requires TableValid(jobs, nextJob) && id in jobs && RowStep(jobs[id], row)
    requires row.Active() ==> jobs[id].Active()
    requires row.status == Leased ==> jobs[id].status == Leased
    requires row.status == Queued ==> row.attempts < row.maxAttempts
    ensures TableValid(jobs[id := row], nextJob)
  {
  }

  lemma InsertKeepsTable(jobs: Jobs, nextJob: JobId, row: Job)
    requires TableValid(jobs, nextJob)
    requires row.status == Queued && row.attempts < row.maxAttempts
    requires forall k :: k in jobs && jobs[k].Active() ==> jobs[k].key != row.key
    ensures TableValid(jobs[nextJob := row], nextJob + 1)
  {
  }

  /** Other statements keep `maxAttempts` of the rows that are there and insert under new identifiers. */
  ghost predicate Moved(before: Jobs, after: Jobs, first: JobId) {
    forall id :: id in after && id < first ==> id in before && after[id].maxAttempts == before[id].maxAttempts
  }

  ghost predicate Undisturbed(meanwhile: (JobId, Jobs) -> Jobs) {
    forall id, t :: meanwhile(id, t) == t
  }

  /** The tables after each update of a recovery: what other statements left, then the update. */
  ghost predicate Passes(start: Jobs, end: Jobs, order: seq<JobId>, tables: seq<Jobs>, now: Time, delay: JobId -> int,
                         meanwhile: (JobId, Jobs) -> Jobs) {
    && |tables| == |order| + 1 && tables[0] == start && tables[|order|] == end
    && forall i :: 0 <= i < |order| ==>
         && order[i] in start
         && tables[i + 1] == Recover(meanwhile(order[i], tables[i]), order[i], start[order[i]], now, delay(order[i]))
  }

  /** Every expired lease but those still to do was given up, and nothing else changed. */
  ghost predicate AllRecovered(start: Jobs, jobs: Jobs, todo: set<JobId>, now: Time, delay: JobId -> int) {
    && jobs.Keys == start.Keys
    && forall id :: id in start ==>
         jobs[id] == if Expired(start[id], now) && id !in todo then Recovered(start[id], now, delay(id)) else start[id]
  }

  lemma NothingRecovered(jobs: Jobs, first: JobId, now: Time, delay: JobId -> int, meanwhile: (JobId, Jobs) -> Jobs)
    ensures Passes(jobs, jobs, [], [jobs], now, delay, meanwhile) && Moved(jobs, jobs, first)
    ensures AllRecovered(jobs, jobs, (set id | id in jobs && Expired(jobs[id], now)), now, delay)
  {
  }

  lemma Enlarged(jobs: Jobs, nextJob: JobId, last: JobId)
    requires TableValid(jobs, nextJob) && nextJob <= last
    ensures TableValid(jobs, last) && forall id :: id in jobs ==> id < nextJob
  {
  }

  lemma MovedOn(start: Jobs, before: Jobs, jobs: Jobs, first: JobId, id: JobId)
    requires Moved(start, before, first) && Moved(before, jobs, first) && id in start && id < first
    ensures Moved(start, jobs, first) && (id in jobs ==> jobs[id].maxAttempts == start[id].maxAttempts)
  {
  }

  lemma OnePass(start: Jobs, before: Jobs, order: seq<JobId>, tables: seq<Jobs>, now: Time, delay: JobId -> int,
                meanwhile: (JobId, Jobs) -> Jobs, id: JobId, first: JobId)
    requires Passes(start, before, order, tables, now, delay, meanwhile) && id in start
    ensures
      var jobs := Recover(meanwhile(id, before), id, start[id], now, delay(id));
      && Passes(start, jobs, order + [id], tables + [jobs], now, delay, meanwhile)
      && (Moved(start, meanwhile(id, before), first) ==> Moved(start, jobs, first))
  {
  }

  lemma OneMore(start: Jobs, before: Jobs, todo: set<JobId>, now: Time, delay: JobId -> int, meanwhile: (JobId, Jobs) -> Jobs, id: JobId)
    requires AllRecovered(start, before, todo, now, delay) && Undisturbed(meanwhile) && id in todo && id in start && Expired(start[id], now)
    ensures AllRecovered(start, Recover(meanwhile(id, before), id, start[id], now, delay(id)), todo - {id}, now, delay)
  {
    assert meanwhile(id, before) == before;
  }

  lemma NoneExpired(start: Jobs, jobs: Jobs, now: Time, delay: JobId -> int)
    requires AllRecovered(start, jobs, {}, now, delay)
    ensures forall id :: id in jobs ==> !Expired(jobs[id], now)
  {
  }

  /** The lease of the row was given up and its progress is the given one. If the job is not failed for
      good it is queued again, and no worker finds it before the time its attempts make it wait, a
      minute at least. */
  ghost predicate Retried(jobs: Jobs, next: Jobs, id: JobId, now: Time, attempts: nat, exhausted: bool, progress: set<Month>) {
    && id in jobs && OnlyRow(jobs, next, id) && GivenUp(next[id], now, attempts) && next[id].completed == progress
    && (exhausted <==> next[id].status == Failed)
    && forall t: Time, kinds: set<string>, busy: set<SourceId> :: t < now + 60 * SECOND ==> !Candidate(next, id, t, kinds, busy)
  }

  lemma FailedRow(jobs: Jobs, held: Held, now: Time, permanent: bool, delay: int, progress: set<Month>)
    requires Delay(held.epoch.attempts, delay) && Current(jobs, held)
    ensures Retried(jobs, JobTable.Fail(jobs, held, now, permanent, delay, progress), held.epoch.job, now, held.epoch.attempts,
                    permanent || held.epoch.attempts >= held.maxAttempts, progress)
  {
    hide Delay;
    FailureWaits(jobs, held, now, permanent, delay, progress);
    hide JobTable.Fail;
  }

  lemma RecoveredRow(jobs: Jobs, id: JobId, seen: Job, now: Time, delay: int)
    requires Delay(seen.attempts, delay) && Recoverable(jobs, id, seen, now)
    ensures Retried(jobs, Recover(jobs, id, seen, now, delay), id, now, seen.attempts, seen.attempts >= seen.maxAttempts, jobs[id].completed)
  {
    hide Delay;
    RecoveryWaits(jobs, id, seen, now, delay);
    hide Recover;
  }

  datatype Outcome = Returned(progress: Option<set<Month>>) | Permanent | Crashed

  class Queue {
    var jobs: Jobs
    var nextJob: JobId

    ghost predicate Valid()
      reads this
    {
      TableValid(jobs, nextJob)
    }

    constructor ()
      ensures Valid() && jobs == map[]
    {
      jobs, nextJob := map[], 0;
    }

    /** Create a job or coalesce with the active one of the same key. With `once`, any job of
        the key, finished ones included, is returned instead of creating another. */
    method Enqueue(kind: string, key: string, source: Option<SourceId>, version: Option<nat>, monthsBack: nat,
                   priority: nat, runAfter: Time, maxAttempts: nat, once: bool)
      returns (id: JobId, created: bool)
      requires Valid()
      modifies this
      ensures Valid()
      ensures id in jobs && jobs[id].key == key
      ensures created <==>
              (forall k :: k in old(jobs) && old(jobs)[k].key == key ==> !once && !old(jobs)[k].Active())
      ensures created ==>
                && id == old(nextJob) && id !in old(jobs) && nextJob == id + 1
                && jobs == old(jobs)[id := jobs[id]]
                && jobs[id] == Job(kind, key, source, version, monthsBack, {}, Queued, priority, runAfter, None, "", 0,
                                   if maxAttempts == 0 then MAX_ATTEMPTS else maxAttempts)
      ensures !created ==> id in old(jobs) && nextJob == old(nextJob) && (once || old(jobs)[id].Active())
      ensures !created && once ==>
                jobs == old(jobs) && forall k :: k in jobs && jobs[k].key == key ==> k <= id
      ensures !created && !once ==>
                jobs == old(jobs)[id := Sooner(old(jobs)[id], runAfter, priority)]
    {
      hide KeysUnique, OneLeasePerSource;
      if once && exists k :: k in jobs && jobs[k].key == key {
        id := Newest(key);
        return id, false;
      }
      if exists k :: k in jobs && jobs[k].Active() && jobs[k].key == key {
        id :| id in jobs && jobs[id].Active() && jobs[id].key == key;
        if jobs[id].status == Queued && runAfter < jobs[id].runAfter {
          var row := jobs[id].(runAfter := runAfter,
                               priority := if priority < jobs[id].priority then priority else jobs[id].priority);
          assert jobs[id].attempts < jobs[id].maxAttempts;
          RewriteKeepsTable(jobs, nextJob, id, row);
          jobs := jobs[id := row];
        }
        return id, false;
      }
      id, created := nextJob, true;
      var row := Job(kind, key, source, version, monthsBack, {}, Queued, priority, runAfter, None, "", 0,
                     if maxAttempts == 0 then MAX_ATTEMPTS else maxAttempts);
      InsertKeepsTable(jobs, nextJob, row);
      jobs := jobs[id := row];
      nextJob := nextJob + 1;
    }

    /** Widen a queued job and renew its version; the caller holds the source row, so no lease
        can take the job in between. */
    method Widen(id: JobId, monthsBack: nat, version: nat)
      requires Valid() && id in jobs && jobs[id].status == Queued
      modifies this`jobs
      ensures Valid()
      ensures jobs == old(jobs)[id := old(jobs)[id].(monthsBack := monthsBack, version := Some(version))]
    {
      var row := jobs[id].(monthsBack := monthsBack, version := Some(version));
      RewriteKeepsTable(jobs, nextJob, id, row);
      jobs := jobs[id := row];
    }

    /** `order_by('-created_at').first()`: identifiers grow with creation. */
    method Newest(key: string) returns (id: JobId)
      requires exists k :: k in jobs && jobs[k].key == key
      ensures id in jobs && jobs[id].key == key
      ensures forall k :: k in jobs && jobs[k].key == key ==> k <= id
    {
      id :| id in jobs && jobs[id].key == key;
      var rest := set k | k in jobs && jobs[k].key == key;
      ghost var all := rest;
      while rest != {}
        invariant rest <= all && id in all
        invariant forall k :: k in all && k !in rest ==> k <= id
      {
        var k :| k in rest;
        if k > id {
          id := k;
        }
        rest := rest - {k};
      }
      assert forall k :: k in jobs && jobs[k].key == key ==> k in all;
    }

    /** First row of a non-empty candidate list in queue order. */
    method First(ids: set<JobId>) returns (first: JobId)
      requires ids != {} && ids <= jobs.Keys
      ensures first in ids && forall k :: k in ids ==> Precedes(jobs, first, k)
    {
      first :| first in ids;
      var rest := ids - {first};
      while rest != {}
        invariant rest <= ids && first in ids
        invariant forall k :: k in ids && k !in rest ==> Precedes(jobs, first, k)
      {
        var k :| k in rest;
        if !Precedes(jobs, first, k) {
          first := k;
        }
        rest := rest - {k};
      }
    }

    /** Lease the next runnable job. `busy` may be an out-of-date list of leased sources and
        `lockable` lists the sources whose row is there and not locked elsewhere; whatever
        they are, no source ever has two leased jobs. */
    method Lease(worker: string, now: Time, kinds: set<string>, busy: set<SourceId>, lockable: set<SourceId>)
      returns (held: Option<Held>)
      requires Valid()
      modifies this`jobs
      ensures Valid()
      ensures held.None? <==> forall k :: k in old(jobs) ==> !Claimable(old(jobs), k, now, kinds, busy, lockable)
      ensures held.None? ==> jobs == old(jobs)
      ensures held.None? ==>
                forall k :: k in jobs && jobs[k].status == Queued && jobs[k].runAfter <= now && (kinds == {} || jobs[k].kind in kinds) ==>
                              && jobs[k].source.Some?
                              && var s := jobs[k].source.value;
                              s in busy || s !in lockable || SourceLeased(jobs, s)
      ensures held.Some? ==>
                && held.value.epoch.job in old(jobs)
                && var j := old(jobs)[held.value.epoch.job];
                && j.status == Queued && j.runAfter <= now && (kinds == {} || j.kind in kinds)
                && (j.source.Some? ==> j.source.value !in busy && j.source.value in lockable && !SourceLeased(old(jobs), j.source.value))
      ensures held.Some? ==>
                var id := held.value.epoch.job;
                && Claimable(old(jobs), id, now, kinds, busy, lockable)
                && (forall k :: Claimable(old(jobs), k, now, kinds, busy, lockable) ==> Precedes(old(jobs), id, k))
                && jobs == old(jobs)[id := Claimed(old(jobs)[id], worker, now)]
                && held.value == HeldBy(id, jobs[id])
                && Live(jobs, held.value, now)
    {
      var candidates := set id | id in jobs && Candidate(jobs, id, now, kinds, busy);
      var todo := candidates;
      while todo != {}
        invariant jobs == old(jobs) && todo <= candidates
        invariant forall k :: k in candidates && k !in todo ==> !Claimable(jobs, k, now, kinds, busy, lockable)
      {
        var id := First(todo);
        todo := todo - {id};
        if jobs[id].source.Some? {
          var s := jobs[id].source.value;
          if s !in lockable {
            continue;
          }
          if exists k :: k in jobs && jobs[k].status == Leased && jobs[k].source == Some(s) {
            continue;
          }
        }
        jobs := jobs[id := Claimed(jobs[id], worker, now)];
        return Some(HeldBy(id, jobs[id]));
      }
      return None;
    }

    method Heartbeat(held: Held, now: Time, progress: Option<set<Month>>) returns (kept: bool)
      requires Valid()
      modifies this`jobs
      ensures Valid()
      ensures jobs == JobTable.Heartbeat(old(jobs), held, now, progress)
      ensures kept <==> Live(old(jobs), held, now)
      ensures kept ==> Live(jobs, held, now)
    {
      kept := Live(jobs, held, now);
      if kept {
        var id := held.epoch.job;
        var row := jobs[id].(leaseExpires := Some(now + LEASE));
        if progress.Some? {
          row := row.(completed := progress.value);
        }
        RewriteKeepsTable(jobs, nextJob, id, row);
        jobs := jobs[id := row];
      }
    }

    method Complete(held: Held, progress: set<Month>)
      requires Valid()
      modifies this`jobs
      ensures Valid()
      ensures jobs == JobTable.Complete(old(jobs), held, progress)
      ensures !Current(jobs, held)
    {
      if Current(jobs, held) {
        var id := held.epoch.job;
        var row := jobs[id].(status := Done, leaseExpires := None, completed := progress);
        RewriteKeepsTable(jobs, nextJob, id, row);
        jobs := jobs[id := row];
      }
    }

    /** Fail a leased job; a copy of the row keeps its `maxAttempts`. */
    method Fail(held: Held, now: Time, permanent: bool, delay: int, progress: set<Month>) returns (exhausted: bool)
      requires Valid() && Delay(held.epoch.attempts, delay)
      requires held.epoch.job in jobs ==> held.maxAttempts == jobs[held.epoch.job].maxAttempts
      modifies this`jobs
      ensures Valid()
      ensures jobs == JobTable.Fail(old(jobs), held, now, permanent, delay, progress)
      ensures exhausted <==> permanent || held.epoch.attempts >= held.maxAttempts
      ensures !Current(jobs, held)
      ensures Current(old(jobs), held) ==> Retried(old(jobs), jobs, held.epoch.job, now, held.epoch.attempts, exhausted, progress)
    {
      if Current(jobs, held) {
        FailedRow(jobs, held, now, permanent, delay, progress);
      }
      hide Retried;
      exhausted := Exhausted(held, permanent);
      if Current(jobs, held) {
        var id := held.epoch.job;
        var row := jobs[id].(leaseExpires := None, completed := progress);
        if exhausted {
          row := row.(status := Failed, runAfter := now);
        } else {
          row := row.(status := Queued, runAfter := now + delay);
        }
        RewriteKeepsTable(jobs, nextJob, id, row);
        jobs := jobs[id := row];
      }
    }

    /** The update of `recover_expired` for one row of its list, as the list read it. */
    method RecoverOne(id: JobId, seen: Job, now: Time, delay: int)
      requires Valid() && Delay(seen.attempts, delay)
      requires id in jobs ==> seen.maxAttempts == jobs[id].maxAttempts
      modifies this`jobs
      ensures Valid()
      ensures jobs == JobTable.Recover(old(jobs), id, seen, now, delay)
      ensures Recoverable(old(jobs), id, seen, now) ==>
                Retried(old(jobs), jobs, id, now, seen.attempts, seen.attempts >= seen.maxAttempts, old(jobs)[id].completed)
    {
      hide Bounded, KeysUnique, OneLeasePerSource, Delay, Retried;
      if Recoverable(jobs, id, seen, now) {
        RecoveredRow(jobs, id, seen, now, delay);
        var row := Recovered(jobs[id], now, delay);
        RewriteKeepsTable(jobs, nextJob, id, row);
        jobs := jobs[id := row];
      }
    }

    /** Re-queue or fail every job whose lease ran out. The list is read first; `meanwhile` is what
        other statements make of the table before the update of each row, and `last` bounds the
        identifiers they use. Every listed row is counted, also one that changed in between and is
        left alone; undisturbed, no expired lease is left. */
    method RecoverExpired(now: Time, delay: JobId -> int, meanwhile: (JobId, Jobs) -> Jobs, last: JobId)
      returns (recovered: nat, ghost order: seq<JobId>, ghost tables: seq<Jobs>)
      requires Valid() && nextJob <= last
      requires forall id :: id in jobs ==> Delay(jobs[id].attempts, delay(id))
      requires forall id, t :: TableValid(t, last) ==> TableValid(meanwhile(id, t), last) && Moved(t, meanwhile(id, t), nextJob)
      modifies this
      ensures Valid()
      ensures Passes(old(jobs), jobs, order, tables, now, delay, meanwhile)
      ensures (forall id :: id in order <==> id in old(jobs) && Expired(old(jobs)[id], now))
      ensures forall i, j :: 0 <= i < j < |order| ==> order[i] != order[j]
      ensures recovered == |order|
      ensures Undisturbed(meanwhile) ==> AllRecovered(old(jobs), jobs, {}, now, delay) && forall id :: id in jobs ==> !Expired(jobs[id], now)
    {
      hide TableValid, Delay, Undisturbed, Passes, AllRecovered, Moved, Expired;
      ghost var first, start := nextJob, jobs;
      NothingRecovered(jobs, first, now, delay, meanwhile);
      Enlarged(jobs, nextJob, last);
      nextJob := last;
      var todo := set id | id in jobs && Expired(jobs[id], now);
      ghost var listed := todo;
      var seen := jobs;
      recovered, order, tables := 0, [], [jobs];
      while todo != {}
        invariant Valid() && nextJob == last && todo <= listed && recovered == |order|
        invariant Passes(start, jobs, order, tables, now, delay, meanwhile)
        invariant forall id :: id in order <==> id in listed && id !in todo
        invariant forall i, j :: 0 <= i < j < |order| ==> order[i] != order[j]
        invariant Moved(start, jobs, first)
        invariant Undisturbed(meanwhile) ==> AllRecovered(start, jobs, todo, now, delay)
      {
        var id :| id in todo;
        ghost var before := jobs;
        jobs := meanwhile(id, jobs);
        MovedOn(start, before, jobs, first, id);
        RecoverOne(id, seen[id], now, delay(id));
        OnePass(start, before, order, tables, now, delay, meanwhile, id, first);
        if Undisturbed(meanwhile) {
          OneMore(start, before, todo, now, delay, meanwhile, id);
        }
        todo := todo - {id};
        order, tables, recovered := order + [id], tables + [jobs], recovered + 1;
      }
      if Undisturbed(meanwhile) {
        NoneExpired(start, jobs, now, delay);
      }
    }

    /** Execute one leased job: a permanent error never retries, any other failure retries
        until the attempts are used up. */
    method RunJob(held: Held, known: bool, outcome: Outcome, now: Time, delay: int, progress: set<Month>)
      returns (success: bool)
      requires Valid() && Delay(held.epoch.attempts, delay)
      requires held.epoch.job in jobs ==> held.maxAttempts == jobs[held.epoch.job].maxAttempts
      modifies this`jobs
      ensures Valid()
      ensures success <==> known && outcome.Returned?
      ensures jobs ==
              if success then
                JobTable.Complete(old(jobs), held, if outcome.progress.Some? then outcome.progress.value else progress)
              else JobTable.Fail(old(jobs), held, now, !known || outcome.Permanent?, delay, progress)
      ensures Current(old(jobs), held) ==>
                jobs[held.epoch.job].status ==
                  if success then Done
                  else if !known || outcome.Permanent? || held.epoch.attempts >= held.maxAttempts then Failed
                  else Queued
      ensures Current(old(jobs), held) && !success ==>
                Retried(old(jobs), jobs, held.epoch.job, now, held.epoch.attempts,
                        !known || outcome.Permanent? || held.epoch.attempts >= held.maxAttempts, progress)
      ensures Current(old(jobs), held) && success ==>
                jobs[held.epoch.job].completed == if outcome.progress.Some? then outcome.progress.value else progress
    {
      hide Retried;
      success := false;
      if !known {
        var _ := Fail(held, now, true, delay, progress);
        return;
      }
      match outcome
      case Returned(result) =>
        Complete(held, if result.Some? then result.value else progress);
        success := true;
      case Permanent =>
        var _ := Fail(held, now, true, delay, progress);
      case Crashed =>
        var _ := Fail(held, now, false, delay, progress);
    }
  }
}
