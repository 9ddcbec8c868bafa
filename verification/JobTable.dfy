/** The job table of the durable queue and the single statements that update it.

    A statement is one `UPDATE ... WHERE ...`: it reads the committed row, tests its
    condition and writes, all under the row lock. A worker holds a copy of the row it
    leased; the pair (job, attempts) in that copy is its lease epoch. */
module JobTable {
  import opened Options

  type JobId = nat
  type SourceId = nat
  type Month = int
  type Time = int // microseconds

  const SECOND: int := 1_000_000
  const LEASE: int := 600 * SECOND
  const BACKOFF: int := 60 * SECOND
  const BACKOFF_CAP: int := 3600 * SECOND
  const MAX_ATTEMPTS: nat := 6

  datatype Status = Queued | Leased | Done | Failed

  datatype Job = Job(
    kind: string,
    key: string,
    source: Option<SourceId>,
    version: Option<nat>,       // payload['connection_version']
    monthsBack: nat,            // payload['months_back']
    completed: set<Month>,      // progress['completed']
    status: Status,
    priority: nat,
    runAfter: Time,
    leaseExpires: Option<Time>,
    worker: string,
    attempts: nat,
    maxAttempts: nat)
  {
    predicate Active() {
      status == Queued || status == Leased
    }

    predicate Terminal() {
      status == Done || status == Failed
    }
  }

  type Jobs = map<JobId, Job>

  /** One lease of one job: every lease raises `attempts`. */
  datatype Epoch = Epoch(job: JobId, attempts: nat)

  /** The part of a leased row its worker keeps in memory. */
  datatype Held = Held(epoch: Epoch, worker: string, maxAttempts: nat)

  /** The status, worker and attempts test shared by every statement a worker issues. */
  predicate Current(jobs: Jobs, h: Held) {
    && h.epoch.job in jobs
    && jobs[h.epoch.job].status == Leased
    && jobs[h.epoch.job].worker == h.worker
    && jobs[h.epoch.job].attempts == h.epoch.attempts
  }

  /** The same test with an unexpired lease, as `heartbeat` and publication make it. */
  predicate Live(jobs: Jobs, h: Held, now: Time) {
    && Current(jobs, h)
    && jobs[h.epoch.job].leaseExpires.Some?
    && jobs[h.epoch.job].leaseExpires.value > now
  }

  function Power2(n: nat): nat {
    if n == 0 then 1 else 2 * Power2(n - 1)
  }

  function Backoff(attempts: nat): int {
    var base := BACKOFF * Power2(if attempts == 0 then 0 else attempts - 1);
    if base < BACKOFF_CAP then base else BACKOFF_CAP
  }

  /** `backoff` adds a jitter between zero and half the delay. */
  predicate Delay(attempts: nat, delay: int) {
    Backoff(attempts) <= delay <= Backoff(attempts) + Backoff(attempts) / 2
  }

  /** An enqueue that meets an active job of its key pulls a queued one forward. */
  function Sooner(j: Job, runAfter: Time, priority: nat): Job {
    if j.status == Queued && runAfter < j.runAfter
    then j.(runAfter := runAfter, priority := if priority < j.priority then priority else j.priority)
    else j
  }

  function Claimed(j: Job, worker: string, now: Time): Job {
    j.(status := Leased, worker := worker, attempts := j.attempts + 1, leaseExpires := Some(now + LEASE))
  }

  function HeldBy(id: JobId, j: Job): Held {
    Held(Epoch(id, j.attempts), j.worker, j.maxAttempts)
  }

  function Heartbeat(jobs: Jobs, h: Held, now: Time, progress: Option<set<Month>>): (next: Jobs)
    ensures next.Keys == jobs.Keys
  {
    if Live(jobs, h, now) then
      var row := jobs[h.epoch.job].(leaseExpires := Some(now + LEASE));
      jobs[h.epoch.job := if progress.Some? then row.(completed := progress.value) else row]
    else jobs
  }

  function Complete(jobs: Jobs, h: Held, progress: set<Month>): (next: Jobs)
    ensures next.Keys == jobs.Keys
  {
    if Current(jobs, h) then
      jobs[h.epoch.job := jobs[h.epoch.job].(status := Done, leaseExpires := None, completed := progress)]
    else jobs
  }

  predicate Exhausted(h: Held, permanent: bool) {
    permanent || h.epoch.attempts >= h.maxAttempts
  }

  function Fail(jobs: Jobs, h: Held, now: Time, permanent: bool, delay: int, progress: set<Month>): (next: Jobs)
    ensures next.Keys == jobs.Keys
  {
    if Current(jobs, h) then
      var row := jobs[h.epoch.job].(leaseExpires := None, completed := progress);
      jobs[h.epoch.job :=
        if Exhausted(h, permanent) then row.(status := Failed, runAfter := now)
        else row.(status := Queued, runAfter := now + delay)]
    else jobs
  }

  /** One iteration of `recover_expired`: `seen` is the row as its list query read it. */
  predicate Recoverable(jobs: Jobs, id: JobId, seen: Job, now: Time) {
    && id in jobs
    && jobs[id].status == Leased
    && jobs[id].leaseExpires.Some?
    && jobs[id].leaseExpires.value < now
    && jobs[id].worker == seen.worker
    && jobs[id].attempts == seen.attempts
  }

  function Recover(jobs: Jobs, id: JobId, seen: Job, now: Time, delay: int): (next: Jobs)
    ensures next.Keys == jobs.Keys
  {
    if Recoverable(jobs, id, seen, now) then
      jobs[id := jobs[id].(
        status := if seen.attempts >= seen.maxAttempts then Failed else Queued,
        leaseExpires := None,
        runAfter := now + delay)]
    else jobs
  }

  lemma {:induction false} Power2Positive(n: nat)
    ensures Power2(n) >= 1
  {
    if n > 0 {
      Power2Positive(n - 1);
    }
  }

  lemma {:induction false} Power2Grows(n: nat)
    ensures n >= 6 ==> Power2(n) >= 64
  {
    if n > 6 {
      Power2Grows(n - 1);
    }
  }

  /** A retry waits a minute after the first attempt, twice as long after each further one up to
      the cap of an hour, which the seventh attempt has reached; the jitter adds at most half. */
  lemma BackoffDoubles(attempts: nat, delay: int)
    requires Delay(attempts, delay)
    ensures BACKOFF <= delay <= BACKOFF_CAP + BACKOFF_CAP / 2
    ensures attempts <= 1 ==> BACKOFF <= delay <= BACKOFF + BACKOFF / 2
    ensures attempts >= 1 ==> Backoff(attempts + 1) == if 2 * Backoff(attempts) < BACKOFF_CAP then 2 * Backoff(attempts) else BACKOFF_CAP
    ensures Backoff(attempts) == BACKOFF_CAP <==> attempts >= 7
    ensures Delay(attempts, Backoff(attempts)) && Delay(attempts, Backoff(attempts) + Backoff(attempts) / 2)
  {
    var n := if attempts == 0 then 0 else attempts - 1;
    Power2Positive(n);
    Power2Grows(n);
    assert Power2(0) == 1 && Power2(1) == 2 && Power2(2) == 4 && Power2(3) == 8 && Power2(4) == 16 && Power2(5) == 32;
  }

  // --- What the statements do --------------------------------------------------------

  /** Nothing but the named row changes, and of it only the lease, the progress, the status and the
      time of its next run. */
  ghost predicate OnlyRow(jobs: Jobs, next: Jobs, id: JobId) {
    && next.Keys == jobs.Keys
    && (forall k :: k in jobs && k != id ==> next[k] == jobs[k])
    && (id in jobs ==>
          next[id] == jobs[id].(leaseExpires := next[id].leaseExpires, completed := next[id].completed, status := next[id].status,
                                runAfter := next[id].runAfter))
  }

  /** A row given up: it keeps no lease, and if it is queued again it waits a minute to an hour and a
      half, as long as the delay drawn for its attempts. */
  ghost predicate GivenUp(row: Job, now: Time, attempts: nat) {
    && row.leaseExpires.None? && (row.status == Queued || row.status == Failed)
    && (row.status == Queued ==> Delay(attempts, row.runAfter - now) && now + 60 * SECOND <= row.runAfter <= now + 5400 * SECOND)
  }

  /** A live worker that reports keeps its lease for ten minutes from now and saves its progress; a
      worker that is not live changes nothing. */
  lemma HeartbeatHoldsLease(jobs: Jobs, h: Held, now: Time, progress: Option<set<Month>>)
    ensures
      var next, id := Heartbeat(jobs, h, now, progress), h.epoch.job;
      if Live(jobs, h, now) then
        && OnlyRow(jobs, next, id) && next[id].runAfter == jobs[id].runAfter
        && (forall t :: Live(next, h, t) <==> t < now + 600 * SECOND)
        && next[id].completed == if progress.Some? then progress.value else jobs[id].completed
      else next == jobs
  {
  }

  /** Whoever does not hold the lease changes nothing: another worker, an earlier or later lease, a job
      that is not leased or gone. */
  lemma StrangersChangeNothing(jobs: Jobs, h: Held, now: Time, progress: set<Month>, permanent: bool, delay: int)
    requires h.epoch.job in jobs ==>
               var row := jobs[h.epoch.job];
               row.status != Leased || row.worker != h.worker || row.attempts != h.epoch.attempts
    ensures Heartbeat(jobs, h, now, Some(progress)) == jobs && Heartbeat(jobs, h, now, None) == jobs
    ensures Complete(jobs, h, progress) == jobs && Fail(jobs, h, now, permanent, delay, progress) == jobs
  {
  }

  lemma CompleteEndsLease(jobs: Jobs, h: Held, progress: set<Month>)
    ensures
      var next, id := Complete(jobs, h, progress), h.epoch.job;
      if Current(jobs, h) then
        && OnlyRow(jobs, next, id) && next[id].status == Done && next[id].completed == progress && next[id].leaseExpires.None?
        && next[id].runAfter == jobs[id].runAfter
      else next == jobs
  {
  }

  /** A failure ends the lease and keeps the progress of the worker. It is final exactly if the error
      is permanent or the attempts are used up; otherwise the job waits for its next attempt. */
  lemma FailureWaits(jobs: Jobs, h: Held, now: Time, permanent: bool, delay: int, progress: set<Month>)
    requires Delay(h.epoch.attempts, delay)
    ensures
      var next, id := Fail(jobs, h, now, permanent, delay, progress), h.epoch.job;
      if Current(jobs, h) then
        && OnlyRow(jobs, next, id) && GivenUp(next[id], now, h.epoch.attempts) && next[id].completed == progress
        && (next[id].status == Failed <==> permanent || h.epoch.attempts >= h.maxAttempts)
      else next == jobs
  {
    BackoffDoubles(h.epoch.attempts, delay);
  }

  /** Recovery gives up a lease that ran out, exactly if the row still is as it was listed; the saved
      progress stays for the next attempt. */
  lemma RecoveryWaits(jobs: Jobs, id: JobId, seen: Job, now: Time, delay: int)
    requires Delay(seen.attempts, delay)
    ensures
      var next := Recover(jobs, id, seen, now, delay);
      if id in jobs && jobs[id].status == Leased && jobs[id].leaseExpires.Some? && jobs[id].leaseExpires.value < now
         && jobs[id].worker == seen.worker && jobs[id].attempts == seen.attempts then
        && OnlyRow(jobs, next, id) && GivenUp(next[id], now, seen.attempts) && next[id].completed == jobs[id].completed
        && (next[id].status == Failed <==> seen.attempts >= seen.maxAttempts)
      else next == jobs
  {
    BackoffDoubles(seen.attempts, delay);
  }

  /** A lease lasts ten minutes, counts one attempt and leaves the payload, the progress and the place
      in the queue as they were. */
  lemma LeaseLasts(jobs: Jobs, id: JobId, worker: string, now: Time)
    requires id in jobs
    ensures
      var next := jobs[id := Claimed(jobs[id], worker, now)];
      && next[id].attempts == jobs[id].attempts + 1 && next[id].status == Leased && next[id].worker == worker
      && next[id] == jobs[id].(attempts := next[id].attempts, status := Leased, worker := worker, leaseExpires := next[id].leaseExpires)
      && HeldBy(id, next[id]).epoch == Epoch(id, jobs[id].attempts + 1) && HeldBy(id, next[id]).maxAttempts == jobs[id].maxAttempts
      && forall t :: Live(next, HeldBy(id, next[id]), t) <==> t < now + 600 * SECOND
  {
  }

  /** Asking again for a queued job never delays it: it runs at the earlier of the two times, and only
      if that is earlier than before its priority becomes the more urgent of the two. A leased job is
      left alone. */
  lemma AskedAgain(j: Job, runAfter: Time, priority: nat)
    ensures
      var k := Sooner(j, runAfter, priority);
      && k == j.(runAfter := k.runAfter, priority := k.priority)
      && k.runAfter <= j.runAfter && k.priority <= j.priority
      && (j.status != Queued || j.runAfter <= runAfter ==> k == j)
      && (j.status == Queued ==>
            && k.runAfter <= runAfter && (k.runAfter == j.runAfter || k.runAfter == runAfter)
            && (runAfter < j.runAfter ==> k.priority <= priority && (k.priority == j.priority || k.priority == priority)))
  {
  }

  // --- What every statement keeps -------------------------------------------------

  /** Attempt bounds; `Claimed` itself never tests them. */
  ghost predicate Bounded(jobs: Jobs) {
    forall id :: id in jobs ==>
      && jobs[id].attempts <= jobs[id].maxAttempts
      && (jobs[id].status == Queued ==> jobs[id].attempts < jobs[id].maxAttempts)
      && (jobs[id].status == Leased ==> 1 <= jobs[id].attempts <= jobs[id].maxAttempts)
  }

  /** The partial unique index on `key` over queued and leased rows. */
  ghost predicate KeysUnique(jobs: Jobs) {
    forall a, b :: a in jobs && b in jobs && a != b && jobs[a].Active() && jobs[b].Active()
      ==> jobs[a].key != jobs[b].key
  }

  ghost predicate OneLeasePerSource(jobs: Jobs) {
    forall a, b :: a in jobs && b in jobs && a != b && jobs[a].status == Leased && jobs[b].status == Leased
                   && jobs[a].source.Some? && jobs[b].source.Some?
      ==> jobs[a].source != jobs[b].source
  }

  ghost predicate SourceLeased(jobs: Jobs, s: SourceId) {
    exists id :: id in jobs && jobs[id].status == Leased && jobs[id].source == Some(s)
  }

  /** How one row may change in one statement: a terminal row never changes, attempts only
      grow, the identity of the row is fixed, a lease is the only way to raise attempts, and only
      a row that is and stays queued gets another payload. */
  ghost predicate RowStep(a: Job, b: Job) {
    && b.kind == a.kind && b.key == a.key && b.source == a.source && b.maxAttempts == a.maxAttempts
    && (a.Terminal() ==> b == a)
    && (b.attempts == a.attempts || (b.attempts == a.attempts + 1 && a.status == Queued && b.status == Leased))
    && (a.status == Queued && b.status == Leased ==> b.attempts == a.attempts + 1)
    && ((a.status == Queued && b.status == Queued) || (b.monthsBack == a.monthsBack && b.version == a.version))
  }

  /** Attempts a job still has left, counting half for a lease being given up. */
  function Budget(j: Job): int {
    2 * (j.maxAttempts - j.attempts) + (if j.status == Leased then 1 else 0)
  }

  /** Every lease and every requeue strictly lowers the budget, which never goes below zero
      while the attempt bounds hold: a job is leased at most `maxAttempts` times. */
  lemma BudgetDecreases(a: Job, b: Job)
    requires RowStep(a, b)
    requires a.Active() && b.Active() && a.status != b.status
    requires b.status == Queued ==> a.attempts == b.attempts
    ensures Budget(b) < Budget(a)
    ensures b.attempts <= b.maxAttempts ==> Budget(b) >= 0
  {
  }
}
