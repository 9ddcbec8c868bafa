# Verified model of the billing console

This project models the parts of the billing console whose guarantees are decided by code, and
proves them: the durable job queue with atomic cost publication, the onboarding broker, the
effective-dated ownership of accounts, project allocation, the report contract with its console
links, budget amounts, scheduling, the cache of AWS requests and the activation of connections.
`dafny verify dfyconfig.toml` checks all of it.

## How it is modelled

The database is a set of tables. A transaction is one step, or one step per lock, read and commit
where the code relies on row locks. Objects that the code updates in place are classes; the
methods follow the code and are proved against functions on values, about which the theorems
speak. Services outside (AWS, IAM, DynamoDB, clocks, jitter) are parameters that may return
anything they could return. Days are day numbers or `Calendar.Date`, amounts are integers in the
smallest stored unit, versions and attempts are natural numbers.

| file | content |
|---|---|
| JobTable, JobQueue | the job rows, the single statements that update them, and the queue as an object |
| Protocol, ProtocolInvariants, CollectionTheorems | workers, recovery, scheduler and operators interleaved over explicit row locks; what every step keeps; what holds in every run |
| Invalidation, Retries, Locking, Undisturbed | what a stop or a rotation does to work in progress; when a job is tried again; what the row locks guarantee; what the protocol achieves when nothing interferes |
| Aws, Collector | request metering, fetching a month page by page, publishing it, collecting the months of a source |
| Broker, BrokerPolicy | the conditional store and the mirrored policy, interleaved calls with stale reads, and one call as a method; the text of the policy, its capacity and the roles it may name |
| Ownership, Stamping, Windows | assignments, transfers, stamps of cost rows; transfers, restamping and publications interleaved; the windows in which AWS is asked |
| Allocation, ProjectCosts, Sums | admission of rules, who takes which spend, recomputation and reconciliation |
| Calendar, Text, Reports, Normalization | dates, sorted texts, the normal form of a report |
| FilterInput, ReportRules | what filters mean as they are read; which reports are accepted, rule by rule |
| Console, ConsoleRoundTrip, ConsoleExact, RequestMeaning | the AWS request of a report, console links, their round trip and exactly when it holds; which lines of usage a request covers |
| Budgets, Scheduler, QueryCache, QueryRefresh, Activation | the four smaller cores |

## What turned out not to hold

Each of these has a lemma or a contract that shows it, and almost all also one that says exactly when
the code does what was expected.

- Two interleaved broker calls can take a role back out of the policy after one of them reported it
  as allowed: `Broker.PolicyCanRegress`. A write reverts exactly when its set is strictly older
  (`Broker.WritesRevertExactlyWhenOlder`); the state itself never loses a role.
- Retiring an allocation rule that had already ended moves its end forward, and it can then claim an
  account together with its successor: `Allocation.RetiringDoubleClaimsExactly`,
  `Allocation.RetiringShortensExactly`, with a book in `Allocation.RetiringCanDoubleClaim`.
- A tag rule and a cost category rule with the same key string are admitted side by side and can take
  the same line: `Allocation.QueryRulesShareExactly`.
- `ownership_windows` with its bounds reversed returns a window although the range has no day, exactly
  when some account is owned throughout; an empty set of permitted accounts restricts nothing:
  `Windows.OwnershipWindows`.
- The overlap test of assignments misses a clash on the last date there is: `Ownership.ClashMeansSharedDay`.
- An account whose assignments have all ended after the epoch makes every later publication of an
  exclusive, approved source fail until it is assigned by hand: `Ownership.Registry.Publish`.
- A recurring budget amount that is set for an earlier month than a closed one does not decide the
  months of the closed one: `Budgets.LaterMonthsChange`, `Budgets.LaterClosedRowKeepsDeciding`.
- A manual pull, also one for the whole history, can return a backfill that covers less: exactly when
  the oldest pending job runs a shorter pull and a backfill shorter than asked is already active
  (`Scheduler.RequestPull`). Pulls of other lengths, as the six months of the command line, queue such
  backfills (`Scheduler.ShortBackfill`); where every pull asks for one month or the whole history there
  are none (`Scheduler.WideInRuns`).
- The connection form saves every column of a row it may have loaded long before. A form opened before
  a rotation and saved after it restores the old version and external id: results loaded before the
  rotation are accepted (`CollectionTheorems.OldFormLetsOldWorkThrough`), a request from before it
  completes (`Activation.OldFormLetsRequestComplete`), and cached data from before it is returned
  (`QueryCache.OldFormRevivesData`). Versions grow exactly if no form writes a lower one
  (`CollectionTheorems.VersionsGrowExactly`); what depends on them is proved under that condition.
- The same form, opened before its customer is stopped and saved edited after it, enables the connection
  again without lowering a version (`Invalidation.EditedFormUndoesStop`); who can enable a disabled
  connection is said exactly by `Invalidation.SourceChanges`. What the stop did to work in progress lasts
  all the same (`Invalidation.StoppedWorkerNeverPublishes`).
- A publication that has read the owners before a transfer and commits after its restamping leaves a
  wrong stamp (`Stamping.PublicationAcrossTransfer`), and so does an older restamping that writes after
  a newer one (`Stamping.OlderRestampOvertakes`). `Stamping.WrongExactly` and `Stamping.WrongCause` say
  exactly which stamps can be wrong.
- Some reports do not come back from their console link: exactly those of usage alone, of the absence
  of one tag key, and of untagged costs beside an additional tag key
  (`ConsoleExact.LinkRoundTripsExactly`; a concrete one is `ConsoleExact.UntaggedTeamIsLost`).

## Model

| member | source | states |
|---|---|---|
| JobTable.BackoffDoubles | billing/jobs.py:42-45 | a retry waits a minute after the first attempt and twice as long after each further one, up to one hour, which exactly the seventh and later attempts have reached; the jitter adds anything up to half of it |
| JobTable.HeartbeatHoldsLease | billing/jobs.py:118-129 | a live worker that reports keeps its lease for exactly ten minutes and saves its progress; any other report changes nothing |
| JobTable.StrangersChangeNothing | billing/jobs.py:132-150 | another worker, an earlier lease and a job that is not leased change no row by any statement |
| JobTable.CompleteEndsLease | billing/jobs.py:132-136 | the current lease ends done with the progress it was given and nothing else of the row changes |
| JobTable.FailureWaits | billing/jobs.py:139-150 | a failure is final exactly if permanent or out of attempts; otherwise the job waits a minute to an hour and a half, as long as its attempts ask, and keeps the progress of the worker |
| JobTable.RecoveryWaits | billing/jobs.py:153-164 | recovery gives up exactly the lease that was listed and has run out; the job waits as after a failure and keeps its saved progress |
| JobTable.LeaseLasts | billing/jobs.py:107-115 | a lease counts one attempt, lasts exactly ten minutes and leaves payload, progress and place in the queue alone |
| JobTable.AskedAgain | billing/jobs.py:67-71 | asking again never delays a queued job: it runs at the earlier time, and only if that is earlier than before takes the more urgent priority; a leased job is left alone |
| JobTable.BudgetDecreases | billing/jobs.py:107-164 | every lease and every requeue lowers `2*(max_attempts - attempts) + (1 if leased)`, which stays non-negative within the attempt bounds |
| JobQueue.RewriteKeepsTable | billing/jobs.py:128-162 | an update that makes no row active or leased keeps the attempt bounds, unique active keys and one lease per source |
| JobQueue.InsertKeepsTable | billing/jobs.py:67-76 | a new queued row with an unused active key keeps the same table invariants |
| JobQueue.QueueOrder | billing/jobs.py:90 | the order of the queue is total: priority, then time, then age |
| JobQueue.Queue.constructor | billing/models.py:512-536 | an empty queue satisfies the table invariants |
| JobQueue.Queue.Enqueue | billing/jobs.py:48-78 | exactly when no active job (with `once`: no job at all) has the key a new row is created with the given fields; otherwise the existing job is returned, the newest one with `once`, and only a queued one is pulled forward |
| JobQueue.Queue.Widen | billing/scheduler.py:203-206 | a queued job gets the wider payload and the current version; no other row or field changes |
| JobQueue.Queue.Newest | billing/jobs.py:65-66 | the job returned is the newest one of the key |
| JobQueue.Queue.First | billing/jobs.py:89-95 | the candidate tried next precedes all others in (priority, run_after, pk) order |
| JobQueue.Queue.Lease | billing/jobs.py:81-115 | the job leased is the first claimable one in queue order, none is leased only if none is claimable, exactly that row changes, and whatever stale list of busy sources was read no source gets two leases |
| JobQueue.Queue.Heartbeat | billing/jobs.py:118-129 | extends the lease exactly when (status, worker, attempts, unexpired) still match; otherwise nothing changes |
| JobQueue.Queue.Complete | billing/jobs.py:132-136 | finishes the job only for its current epoch; afterwards the epoch is over |
| JobQueue.Queue.Fail | billing/jobs.py:139-150 | fails or requeues exactly by permanence and attempts, only for the current epoch; a requeued job keeps the progress of its worker and no worker finds it for at least a minute |
| JobQueue.Queue.RecoverOne | billing/jobs.py:158-162 | one update of the recovery: it acts exactly if the row still has the status, worker, attempts and expired lease that were listed; the job keeps its progress and waits at least a minute |
| JobQueue.Queue.RecoverExpired | billing/jobs.py:153-164 | the expired leases are listed first, each once, and updated one by one while other statements may change the table before every update; every listed row is counted, a row that changed meanwhile is left alone; undisturbed, every expired lease is requeued or failed, every other row stays and none is left |
| JobQueue.Queue.RunJob | billing/jobs.py:167-182 | a returned handler finishes the job; an unknown kind or permanent error never retries; any other failure retries until the attempts are used up, each time after the wait its attempts ask for |
| ProtocolInvariants.StepKept | billing/jobs.py:81-164 | every step of workers, recovery, scheduler and operators, in any order, keeps all invariants of the interleaved system |
| ProtocolInvariants.CommitLeaseTables | billing/jobs.py:95-114 | the recheck under the source row lock is what keeps one lease per source although the list of busy sources may be stale |
| ProtocolInvariants.CheckedBatchKept | billing/collector.py:387-396 | a batch already checked for overlap stays free of foreign rows when another source commits: the two hold different account locks |
| ProtocolInvariants.CommitPublicationPeriods | billing/collector.py:380-406 | a commit keeps period revision equal to the number of publications and `rows` equal to the stored rows, although the revision was read before any lock |
| ProtocolInvariants.BatchSize | billing/collector.py:398-404 | the number of rows written equals the number of distinct stored slices |
| CollectionTheorems.Reachable | billing/jobs.py:81-164 | the invariants hold in every reachable state |
| CollectionTheorems.OnlyCommitsPublish | billing/collector.py:377-407 | only a publication commit changes the cost table or the publication log; a step lowers a version exactly if it saves a form that was loaded at an older one; checks record evidence only at the current version |
| CollectionTheorems.PublicationReplacesMonth | billing/collector.py:377-407 | a commit is made under the current (job, attempts) epoch, replaces exactly one month of one source and raises its revision by exactly one |
| CollectionTheorems.StaleWorkerIsHarmless | billing/collector.py:47-52 | a worker whose epoch is over changes no job row and cannot pass the checks of a publication or of the end of a run |
| CollectionTheorems.RequeuedJobWaits | billing/jobs.py:139-164 | in every run a job that goes back to the queue was given up by its worker or by recovery, waits a minute to an hour and a half, and keeps the progress of its row or worker |
| Retries.LeasedWhenDue | billing/jobs.py:81-115 | in every run a job is leased only when it is due by the clock of the claim, which is not ahead |
| Retries.RetryIsNotEarly | billing/jobs.py:139-164 | in every run a job that was given up is not leased again before the backoff of its attempts has passed, a minute at least, unless somebody asked for it in between |
| CollectionTheorems.OneLeasePerSourceAndKey | billing/models.py:533-536 | in every reachable state a source has at most one leased job and a key at most one active job |
| CollectionTheorems.TerminalJobsStay | billing/jobs.py:132-150 | done and failed are absorbing in every run |
| CollectionTheorems.StaleStaysStale | billing/jobs.py:107-114 | an epoch that is over never becomes current again |
| CollectionTheorems.StaleWorkerNeverPublishes | billing/collector.py:47-52 | once its lease was recovered, cancelled or granted anew, a worker never publishes and never finishes a collection in the rest of the run |
| CollectionTheorems.PublicationsFollowLeases | billing/collector.py:377-407 | the publications of one source are ordered by the leases they were made under |
| CollectionTheorems.CostsAreLastPublications | billing/collector.py:399-406 | the cost table is the union over (source, month) of the last published batches; each period counts its publications and its rows |
| CollectionTheorems.OneSourcePerAccountAndDay | billing/collector.py:365-374 | no account and day is ever stored for two sources, first imports included |
| CollectionTheorems.VersionsGrowExactly | billing/views_management.py:327-366 | connection versions grow throughout a run exactly if no saved connection form writes a lower version than the stored one |
| CollectionTheorems.OldFormLetsOldWorkThrough | billing/views_management.py:327-366 | a run in which a form opened before a rotation and saved unedited after it restores version and external id, and a result loaded before the rotation is recorded |
| CollectionTheorems.CommittedVersion | billing/collector.py:34-44 | a publication is committed with the version the source has at the commit |
| CollectionTheorems.NothingOldIsPublished | billing/collector.py:34-44 | as long as no saved form lowers a version, work loaded before a version bump never publishes costs after it |
| CollectionTheorems.NoOldEvidence | billing/collector.py:34-44 | under the same condition it does not record discovery, verification or budget results either |
| CollectionTheorems.CollectedMonthsWerePublished | billing/collector.py:410-460 | when a collect run succeeds every requested month was published for its source under some lease of that job, whatever crashes and resumed progress came before |
| CollectionTheorems.CompletedMonthsWerePublished | billing/collector.py:441-443 | a month is listed as completed only after a publication for the job's source, under a lease of the job, committed |
| CollectionTheorems.WidenedJobIsQueued | billing/scheduler.py:189-206 | the unconditional write of a pull finds the job it chose still queued, because a lease needs the same source row, or finds it dropped and changes nothing |
| CollectionTheorems.ChosenJobIsPending | billing/scheduler.py:200-206 | the job a pull chooses is queued work of its source for the current version or for none, and choosing it changes nothing else |
| CollectionTheorems.ChosenJobStays | billing/onboarding.py:51-55 | while the pull goes on, the chosen job stays and stays queued unless the queued jobs of its source are dropped, which takes no source lock |
| CollectionTheorems.PayloadIsCurrent | billing/scheduler.py:304-311 | a worker whose lease is current has the months, version and source its row has: no payload changes after the lease |
| CollectionTheorems.LeasesAreBounded | billing/jobs.py:107-114 | a job was leased exactly `attempts` times, never more than `max_attempts`, although the lease does not test the bound |
| CollectionTheorems.AttemptsRunOut | billing/jobs.py:139-164 | in every run each lease and each requeue strictly uses up a non-negative budget |
| Invalidation.InvalidationEffect | billing/governance.py:55-69 | a stop and a rotation raise the version; a stop disables the source and leaves it no active job, a rotation leaves it no queued job and the rest of its connection; other sources and their jobs stay |
| Invalidation.SourceChanges | billing/onboarding.py:35-55 | the connection of a source changes only by a stop, a rotation or a saved form, a disabled source is enabled exactly by an operator or a form that loaded it enabled, and only its own switch makes the customer active or not |
| Invalidation.CommitsAreCurrent | billing/collector.py:34-44 | whatever commits, a month, the end of a run or a check, was loaded with the connection its enabled source has at the commit |
| Invalidation.LoadsNeedActiveCustomer | billing/scheduler.py:230-240 | work starts only for a source that is enabled, has a role, an active customer and the version the job was made for |
| Invalidation.ChecksNeedActiveCustomer | billing/collector.py:34-44 | every recheck of a source needs it enabled, its customer active and its connection as it was loaded |
| Invalidation.CommitsStayInScope | billing/collector.py:384-385 | what is published lies in the source, the month and, of a connection to one account, the account the connection has at the commit |
| Invalidation.ConnectionNeverReturns | billing/governance.py:63-68 | while forms move forward, a connection from before a stop or a rotation never comes back |
| Invalidation.OldWorkNeverCommits | billing/collector.py:377-407 | work that a thread loaded before a stop or a rotation publishes no month and ends no run after it, in any interleaving, until the source is loaded again |
| Invalidation.OldChecksNeverCommit | billing/collector.py:34-44 | the same of verification, discovery and budget import results |
| Invalidation.NothingAfterStop | billing/governance.py:55-69 | from a stop on nothing is committed for the source, whenever it was loaded, until it is enabled again |
| Invalidation.StoppedWorkerNeverPublishes | billing/governance.py:69 | a worker that held a lease of the source at a stop never publishes or finishes again, whatever forms are saved |
| Invalidation.EditedFormUndoesStop | billing/views_management.py:356-366 | a run in which a form opened before a stop and saved edited after it enables the source again without lowering the version |
| Locking.LocksAreNeverTaken | billing/jobs.py:95-106 | no step takes a job row, source row or account that another transaction holds |
| Locking.LockedSourceStays | billing/collector.py:377-382 | while a source row is locked no other step changes the source, except that its customer may be switched on or off |
| Locking.OneThingAtATime | billing/collector.py:410-445 | a thread that publishes a month loads nothing, begins no other month, ends no run and issues no statement about its job; it begins only months of a connection that collects costs and locks each account of its batch once |
| Undisturbed.DueJobIsLeased | billing/jobs.py:81-115 | from any state, a due job whose row and source are free and whose source has no leased job can be leased, with its payload and progress and for ten minutes |
| Undisturbed.NextCandidateIsLeased | billing/jobs.py:95-106 | a claim whose candidate cannot have its source goes on and can lease another due job |
| Undisturbed.EnqueuedExactly | billing/jobs.py:67-78 | a job is inserted exactly if no active job has its key, as a new queued row without attempts; all other rows stay |
| Undisturbed.DistinctSlicesExactly | billing/models.py:235-236 | a batch can be stored exactly if no two rows agree in source, day, account, service and currency |
| Undisturbed.ReadyMonthIsPublished | billing/collector.py:377-407 | from any state, a month fetched under a live lease of an enabled source is published if nobody holds what it needs and no other source has its days: the month becomes the batch one revision later and all locks are free again |
| Undisturbed.RunCanEnd | billing/collector.py:445-452 | a live worker whose connection is unchanged can end its run and complete its job |
| Undisturbed.PullWidens | billing/scheduler.py:189-214 | a pull widens the queued job it finds, renews its version and gives the source back |
| Undisturbed.FormSaves | billing/views_management.py:356-366 | a form saved without anything in between changes the two fields it edits and raises the version exactly if one of them changed |
| Undisturbed.CheckRecords | billing/collector.py:34-44 | a check of an enabled source is recorded with its version |
| Undisturbed.OperatorsNeedTheirRows | billing/governance.py:57-69 | a stop, a rotation and a drop wait exactly for the rows they change |
| Aws.Meter.Call | billing/aws.py:35-56 | an answer is preceded by throttled requests only, at most three retries are made, the request cap is never exceeded, and each failure is told apart |
| Aws.ReadOn | billing/aws.py:35-70 | calls one after the other read the answers in order and give up exactly at the first broken or refused reply or fourth throttled one in a row |
| Collector.DaysErrorConcat | billing/collector.py:307-326 | validating pages one after the other finds the first violation of all of them, and their records are the records of each in order |
| Collector.AcceptedExactly | billing/collector.py:306-317 | days are accepted exactly if all lie in the interval asked for and all groups are of the account asked for, of one unit and finite; a refusal names a violation that is there |
| Collector.RecordsTranscribed | billing/collector.py:306-319 | there are as many records as groups, in order, each with its own account, service, currency, unblended and amortized amount and the flag of its day |
| Collector.LinesListed | billing/collector.py:306-311 | the transcribed lines are exactly the groups of the days |
| Collector.TotalsKept | billing/collector.py:313-319 | per currency the unblended and the amortized total of the records are those of the answers |
| Collector.RecordsInScope | billing/collector.py:308-326 | every fetched record lies inside the requested days and account |
| Collector.FetchedMonthIsBatch | billing/collector.py:295-334 | a fetched month is a batch that publication accepts |
| Collector.ReadGroups | billing/collector.py:310-319 | the loop over the groups of a day gives a transcript of them or the first violation |
| Collector.ReadPage | billing/collector.py:305-319 | the loop over the days of a page gives a transcript of all its groups or the first violation |
| Collector.FetchMonth | billing/collector.py:295-334 | success means every linked page was read in order under a live lease and the records transcribe every group of their answers; each failure has its exact cause, a failed request being the first reply at which a call gives up; a repeated token stops the loop |
| Collector.Ledger.constructor | billing/models.py:235-261 | an empty ledger is consistent |
| Collector.Ledger.EnsurePeriod | billing/collector.py:380 | a missing period is created at revision zero; no revision changes |
| Collector.Ledger.PublishMonth | billing/collector.py:377-407 | the month becomes the batch and its revision rises by one, exactly when the job and the source passed their checks, the accounts are in scope, no other source has their days and no slice is repeated, each refusal having its exact cause; a refused batch leaves every row and revision |
| Collector.Ledger.CollectSource | billing/collector.py:410-460 | months are taken oldest first; a month enters the progress exactly when it was stored; other months and sources are untouched; success means every month up to today was stored; a failure stops at one month that could not be fetched, may not be stored beside the other costs, or whose heartbeat failed, with all earlier ones done and no later one touched |
| Collector.ReplaceMonth | billing/collector.py:399-400 | replacing a month leaves exactly the batch in it and every other month alone |
| Collector.ReplaceKeepsOneSource | billing/collector.py:365-374 | a batch that passes the overlap check keeps one source per account and day |
| Broker.StepKept | deploy/onboarding-broker/broker.py:159-201 | every step of any number of interleaved or interrupted calls keeps the broker invariants |
| Broker.StoredSetsFormChain | deploy/onboarding-broker/broker.py:135-156 | the stored role sets grow strictly and are numbered by their version, every policy value ever written is empty or one of them, the policy never exceeds the state, and the size limit always holds |
| Broker.NeverAheadOfState | deploy/onboarding-broker/broker.py:166-172 | because the policy is read before the state, no call ever finds roles absent from the state or contents it did not write, however stale its reads |
| Broker.RolesAreNeverLost | deploy/onboarding-broker/broker.py:173-176 | the state never loses a role, in particular none that a call reported as allowed |
| Broker.SerializedCallSynchronizes | deploy/onboarding-broker/broker.py:178-201 | a successful call made alone with up-to-date reads leaves policy and state equal and containing its role, also after an earlier call that saved the state and never wrote the policy |
| Broker.WritesRevertExactlyWhenOlder | deploy/onboarding-broker/broker.py:178-180 | a policy write takes an allowed role back exactly when it writes a strictly older set than the policy holds |
| Broker.PolicyCanRegress | deploy/onboarding-broker/broker.py:178-201 | an interleaving of two calls in which the slower one takes back a role that the faster one reported as allowed |
| Broker.SixRolesFit | deploy/onboarding-broker/broker.py:54-62 | any six valid roles fit the policy |
| Broker.ExampleRole | deploy/onboarding-broker/broker.py:29-39 | the roles of the example are valid |
| Broker.Stores.constructor | deploy/onboarding-broker/broker.py:108-116 | without an item and a policy the stores are consistent |
| Broker.Stores.Provision | deploy/onboarding-broker/broker.py:159-201 | every outcome of one call: which check refuses it, what is in both stores after each fault, and that past the checks it succeeds exactly when the policy was complete or a confirmation read shows the new one |
| Broker.DecisionExactly | deploy/onboarding-broker/broker.py:166-177 | an unsound state, a policy ahead of the state and a set too large are refused exactly when they are there, in that order; otherwise the call saves the state with its role, or goes on if the role is there |
| Broker.ForeignPolicyRefused | deploy/onboarding-broker/broker.py:65-90 | contents of the policy that no call wrote are refused at every read |
| Broker.UnansweredRequests | deploy/onboarding-broker/broker.py:145-156 | a request without an answer has its effect and the call is told that it failed; a state that changed since it was read is not written |
| Broker.OnlyActivationsWrite | deploy/onboarding-broker/broker.py:175-180 | the policy is written only by a call whose first read showed another set than the one it saved, and becomes that set; the state only by a save at the version that was read |
| Broker.AllowedWasSeen | deploy/onboarding-broker/broker.py:178-201 | a call is told that its role is allowed only after a read showed it the policy with exactly the set it saved, its first read or one of at most seven confirmations; it gives up unconfirmed only after all seven |
| BrokerPolicy.DocumentNamesRoles | deploy/onboarding-broker/broker.py:42-51 | reading the policy text back gives every role of the set once, in order, and no other; different sets have different texts |
| BrokerPolicy.CapacityExactly | deploy/onboarding-broker/broker.py:54-62 | the text is 136 characters longer than its roles with three characters each, so a set fits exactly up to 3960 of them |
| BrokerPolicy.SevenLongRolesDoNotFit | deploy/onboarding-broker/broker.py:54-62 | seven roles of 590 characters do not fit |
| BrokerPolicy.CapacityIsReached | deploy/onboarding-broker/broker.py:174 | six of the longest roles can be stored and a call for a seventh is refused before anything is written |
| BrokerPolicy.ValidRoleExactly | deploy/onboarding-broker/broker.py:17-39 | the check accepts exactly the roles of a twelve-digit account below the path of the console, with named directories, a name of at most 64 and a path of at most 512 characters |
| BrokerPolicy.NameCharExactly | deploy/onboarding-broker/broker.py:17-20 | names consist of ASCII letters, digits and seven signs |
| BrokerPolicy.CanonicalExactly | deploy/onboarding-broker/broker.py:65-90 | the sets that both readers accept are the non-empty sets of such roles within the capacity |
| Ownership.ClashMeansSharedDay | billing/models.py:214-220 | the overlap test means a shared day, except that it misses a clash on the last date there is |
| Ownership.OwnerIs | billing/models.py:192-193 | an assignment that covers the day names the owner: it is the only one |
| Ownership.OpenIsLast | billing/collector.py:279 | an account has at most one open assignment and nothing of it comes later |
| Ownership.TransferOwners | billing/collector.py:282-289 | closing the open assignment and adding the new one gives the account to the customer from the start date on and changes no earlier day and no other account |
| Ownership.ClosedOwners | billing/onboarding.py:68-70 | closing a customer's assignments takes days from that customer only |
| Ownership.ClosedDays | billing/onboarding.py:68-70 | closing takes the days from today on from an open assignment of the customer, but never its first day, and touches no other assignment |
| Ownership.Registry.constructor | billing/models.py:235-236 | an empty registry is valid |
| Ownership.Registry.OwnerOn | billing/models.py:192-193 | the owner of an account on a day |
| Ownership.Registry.FindOpen | billing/collector.py:279 | the open assignment of an account, if there is one |
| Ownership.Registry.EnsureAssignment | billing/collector.py:274-290 | the outcome follows from the rows alone; a refused transfer changes nothing; an accepted one transfers exactly the days from its start |
| Ownership.Registry.Restamp | billing/views_management.py:563-582 | the account's rows from the date on carry their owner, all other stamps and every amount stay |
| Ownership.Registry.Assign | billing/views_management.py:527-554 | undisturbed, a transfer keeps every stamp equal to the owner, changes no owner or stamp before its start, and conserves every total of any selection of rows |
| Ownership.Registry.OwnerLookup | billing/collector.py:337-362 | every record gets the owner of its account and day after assignment on first sight; exactly an account without open assignment but with one ending after the epoch fails the lookup; no owned day changes hands |
| Ownership.Registry.Publish | billing/collector.py:398-400 | the month becomes the batch, stamped with the owners after assignment on first sight; every other row keeps amounts and stamp; a failed lookup changes nothing |
| Ownership.Registry.Admit | billing/collector.py:349-356 | an account is assigned on first sight only when the source is exclusive, approved and has no open assignment for it |
| Ownership.Registry.StampAccount | billing/collector.py:359-361 | each record of the account is stamped with its owner on its day |
| Ownership.Registry.Offboard | billing/onboarding.py:58-70 | each open assignment of the customer ends today or a day after it started; stamps remain owners exactly when no stored row of the customer lies on a day taken away |
| Stamping.StepKept | billing/views_management.py:563-582 | every step of interleaved transfers, restampings and publications keeps what is known of stamps and of restampings |
| Stamping.TransferExactly | billing/collector.py:274-290 | a transfer can be made exactly when `ensure_assignment` assigns the account |
| Stamping.RowsToUpdate | billing/views_management.py:567-582 | a restamping updates exactly the rows of its account from its day on whose stamp is not the owner it has listed |
| Stamping.WrongExactly | billing/views_management.py:542-551 | in every reachable state a stamp is wrong exactly if the last transfer that reaches the row's account and day was made after the owners of the stamp were read, and to another customer |
| Stamping.WrongCause | billing/collector.py:397-400 | a wrong stamp has its transfer's restamping still under way or given up, or was written after that restamping had read its rows, by a publication or an older restamping that had read the owners before the transfer |
| Stamping.QuietTransfersStampRight | billing/views_management.py:542-551 | if no transfer is made while a publication is between its owner read and its commit or a restamping is unfinished, every stamp is the owner once all restampings are finished |
| Stamping.PublicationAcrossTransfer | billing/collector.py:397-400 | a run in which a publication reads the owners before a transfer and commits after its restamping: all is finished and the stamp is wrong |
| Stamping.OlderRestampOvertakes | billing/views_management.py:573-582 | a run in which two restampings of one account cross and the older one writes last: all is finished and the stamp is wrong |
| Windows.StableBetween | billing/scope.py:196-202 | between two neighbouring boundaries an assignment covers all days or none |
| Windows.SortBoundaries | billing/scope.py:196 | the boundaries are sorted and without repetition |
| Windows.Select | billing/scope.py:194-195 | the assignments of the customer and source that touch the range |
| Windows.OwnershipWindows | billing/scope.py:190-205 | for start <= end: ordered disjoint windows that contain an account and day exactly when an assignment covers it and the account is permitted, where an empty list permits all; for start > end: nothing, or one reversed window exactly when some account is owned throughout |
| Windows.BuildWindows | billing/scope.py:197-204 | the loop over neighbouring boundaries gives one window for each piece in which some permitted account is covered |
| Windows.CustomersShareNothing | billing/scope.py:190-205 | windows of different customers share no account and day, whatever accounts their callers are permitted |
| Windows.WindowsSumOwnedCosts | billing/scope.py:190-205 | summing window by window equals summing the permitted rows owned day by day |
| Allocation.CommonDayOverlaps | billing/allocation.py:22-23 | rules that share a day before the last one have overlapping dates |
| Allocation.ObjectionsAreMutual | billing/allocation.py:49-69 | whether two rules object to each other does not depend on which was saved first |
| Allocation.ClaimedOnce | billing/allocation.py:55-58 | pairwise admission leaves every account and day to at most one whole-account rule |
| Allocation.TakesExactly | billing/allocation.py:73-96 | a whole-account rule takes every line of its accounts on its days, a query rule the lines with its values of accounts owned and unclaimed on the scope day and listed if it lists any |
| Allocation.ClaimsObjectExactly | billing/allocation.py:55-63 | a whole-account rule is refused beside a rule that lists accounts exactly if both would take some account on some day, and never beside a customer-wide one |
| Allocation.QueryRulesObjectExactly | billing/allocation.py:52-69 | two query rules are refused exactly if they meet on an account and day and have different keys or a common value; with one kind of label exactly if some line belongs to both |
| Allocation.SharedWithClaim | billing/allocation.py:73-87 | a query rule shares spend with a whole-account rule only if it is customer-wide and the claim does not cover the first day of its window |
| Allocation.QueryRulesShareExactly | billing/allocation.py:64-69 | two admitted query rules in scope of one account and day have the same key and disjoint values, and can still both take a line exactly when one goes by tag and the other by category |
| Allocation.TakenOnce | billing/allocation.py:33-87 | with claims constant over the window no line of usage is taken by two rules, where two query rules that both take it use one kind of label |
| Allocation.RetiringShortensExactly | billing/views_management.py:664-672 | retiring gives a rule no new day exactly unless it had ended before this month |
| Allocation.RetiredKeepsHistory | billing/views_management.py:664-672 | a retired rule takes nothing from this month on and keeps every earlier day it covered |
| Allocation.RetiringDoubleClaimsExactly | billing/views_management.py:664-672 | retiring a whole-account rule that had ended makes it claim an account together with another rule exactly if that rule claims one of its accounts on a day between the old end and this month |
| Allocation.ShorteningKeepsAdmitted | billing/views_management.py:664-672 | a retirement that shortens keeps the whole rule book admitted |
| Allocation.RetiringCanDoubleClaim | billing/views_management.py:664-672 | a concrete book in which retiring an ended rule makes two rules claim one account and day |
| Allocation.AllocateAccountsRule | billing/allocation.py:106-112 | the rows of a whole-account rule are exactly the groups of the customer's facts in the window, with their totals |
| ProjectCosts.MonthsDisjoint | billing/allocation.py:99-103 | a day belongs to one month |
| ProjectCosts.WindowIsCoveredPart | billing/allocation.py:99-103 | the window of a month holds exactly the days of it the rule covers |
| ProjectCosts.WindowExactly | billing/allocation.py:99-103 | a rule has a window in a month exactly if it covers a day of it, and the window lies in the month |
| ProjectCosts.QueriesEndToday | billing/allocation.py:115-121 | no query covers a day after today, and none is made for a window that starts later |
| ProjectCosts.Book.AddRule | billing/allocation.py:33-70 | a rule is added exactly when approved, within owned accounts and without objection, and the book stays admitted |
| ProjectCosts.Book.DropStale | billing/allocation.py:148-154 | exactly the rows on days the rule no longer covers are deleted |
| ProjectCosts.Book.ReplaceRows | billing/allocation.py:163-165 | the window of the rule becomes the new rows, everything else stays |
| ProjectCosts.Book.AllocateMonth | billing/allocation.py:123-166 | after a recomputed month every row is its target: grouped facts, query rows, or the old row while AWS has not answered; it is refused, and nothing changes, exactly if a query returned a row outside the month, the rule or the past |
| ProjectCosts.Book.AllocateRule | billing/allocation.py:147-166 | after all months every row of the rule in them is its target, independent of the order and repetition of the months; it fails exactly if a query row strays in one of them |
| ProjectCosts.Book.AllocateProject | billing/allocation.py:141-168 | all active rules of the project are recomputed, rows of inactive ones go, other projects are untouched; exactly a stray query row of an active rule stops it |
| ProjectCosts.Book.RetireRule | billing/views_management.py:664-676 | the retired rule keeps no row on a day it no longer covers in this month and the one before |
| ProjectCosts.Book.AllocateAll | billing/allocation.py:171-179 | with whole-account rules only every rule of the listed projects is fresh on every day of the months; when the list has the projects of all rules, every range within the months is up to date |
| ProjectCosts.Book.AllocateAndReconcile | billing/allocation.py:171-203 | after a run over the projects of all rules, reconciling a range within its months leaves exactly the spend that no rule claims |
| ProjectCosts.GroupsDisjoint | billing/allocation.py:106-112 | two allocated rows never aggregate the same fact |
| ProjectCosts.AllocationConserves | billing/allocation.py:182-203 | allocated plus unclaimed facts equals the customer's spend, per currency and metric |
| ProjectCosts.SpendTotal | billing/allocation.py:184-185 | the total of the facts in range, or None without facts |
| ProjectCosts.ProjectTotal | billing/allocation.py:190-191 | the total of a project's rows in range, or None without rows |
| ProjectCosts.Reconcile | billing/allocation.py:182-203 | the remainder is spend minus allocations, and exactly the unclaimed spend when the rows are up to date |
| Calendar.DaysIn | billing/parameters.py:60-62 | a month has 28 to 31 days |
| Calendar.MonthsAdjacent | billing/parameters.py:60-62 | consecutive months are adjacent intervals of days |
| Calendar.OrdinalOrder | billing/parameters.py:80-85 | the order of dates is the order of their day numbers |
| Calendar.PlusDaysOrdinal | billing/parameters.py:71-73 | adding days to a date moves its day number by as many |
| Text.Sorted | billing/parameters.py:102 | sorting a set gives its elements once, in ascending order |
| Text.SortedUnique | billing/parameters.py:102 | there is one ascending list of a set |
| Reports.DatesAgain | billing/parameters.py:52-87 | resolved dates resolve to themselves, also without the end of history when it is not kept; a forecast range ends after today |
| Reports.ValuesNormal | billing/parameters.py:94-102 | accepted values are within the limits, cleaned, non-empty, ascending and distinct |
| Reports.NormalValuesAgain | billing/parameters.py:94-102 | such values are accepted unchanged |
| Reports.ReadKeyed | billing/parameters.py:117-138 | the loop over additional filters accepts exactly lists whose entries are valid and whose keys are distinct |
| Reports.SortedKeyed | billing/parameters.py:141 | sorting additional filters orders them strictly, keeps them all and keeps their size |
| Reports.CompactItemsSize | billing/parameters.py:139-181 | the emitted compact text is no longer than the checked spaced one |
| Reports.KeyedNormal | billing/parameters.py:105-141 | accepted additional filters are in normal form |
| Reports.KeyedAgain | billing/parameters.py:105-141 | a normal list is accepted unchanged, from its own text or as a list |
| FilterInput.ValuesMeaning | billing/parameters.py:94-102 | at most a hundred values of at most 1024 characters become their set in order, account numbers trimmed and empty values left out |
| FilterInput.StripTrims | billing/parameters.py:100-101 | trimming removes exactly the blanks around a text |
| FilterInput.SpaceExactly | billing/parameters.py:100-101 | the blanks that are trimmed are the 29 white space characters Python counts |
| FilterInput.ParsedExactly | billing/parameters.py:119-137 | an additional filter is accepted exactly if it names its kind and a key, its matching is readable and it selects values or absence; it then means what the entry says |
| FilterInput.KeyedExactly | billing/parameters.py:105-141 | a list is accepted exactly if it has at most twenty acceptable entries without a repeated key, within the length limits; its filters stand for its entries one for one |
| FilterInput.JsonLength | billing/parameters.py:138-141 | the length that the limits are about is the length of the JSON text of the filters, spaced or compact |
| Normalization.PrecedingPeriod | billing/parameters.py:201-206 | the preceding period ends the day before the start and is as long, in whole months or in days |
| Normalization.ComparedAgain | billing/parameters.py:197-214 | comparison dates once found are found again |
| Normalization.NormalizedIsFixed | billing/parameters.py:144-220 | a normalized report is its own normal form: its query has every field, reads as the report and passes all checks |
| Normalization.NormalizeAgain | billing/parameters.py:277-282 | normalizing the query of a normalized report succeeds and gives the same report, for every accepted input and the same day |
| ReportRules.RelativeRange | billing/parameters.py:63-81 | a relative range covers exactly the full months, days up to today or yesterday, or running month or year it is named after |
| ReportRules.AcceptedIsReportable | billing/parameters.py:144-220 | whatever is accepted satisfies every rule on dates, limits, names, filters, units, resources, comparison and forecast |
| ReportRules.ReportableExactly | billing/parameters.py:144-220 | a report is its own normal form exactly if it satisfies every rule: nothing else is refused and nothing else gets through |
| ReportRules.AcceptedFields | billing/parameters.py:144-175 | field by field the report says what its query says, with the default where it says nothing |
| ReportRules.ComparisonRangeFirst | billing/parameters.py:148-150 | an unknown comparison range is the first thing refused |
| ReportRules.ComparisonKept | billing/parameters.py:200-212 | given comparison dates stay |
| ReportRules.DefaultReport | billing/parameters.py:144-175 | a query without any choice is the report of the costs of the last six full months by service and month |
| Console.ReadFilters | billing/parameters.py:330-350 | the import loop reads the filters one by one and stops at the first refused one |
| Console.FirstFilterError | billing/parameters.py:331-342 | the first refused filter decides the error |
| Console.WriteFilters | billing/parameters.py:386-413 | the export loops write the primary filters, the active additional ones and keyed absence, in this order |
| RequestMeaning.FilterMeaning | billing/parameters.py:235-259 | a line of usage passes the filter of the request exactly if it meets every selected, excluded and absent filter of the report |
| RequestMeaning.RequestCoversReport | billing/parameters.py:262-274 | the request covers exactly the lines the report wants on exactly the days it reports, the last one included |
| RequestMeaning.RequestOptions | billing/parameters.py:262-274 | money is asked for unless the report is of usage alone, resources exactly if selected or grouped by, and the groups are the report's |
| ConsoleRoundTrip.ImportsExported | billing/parameters.py:331-350 | all exported filters are read back |
| ConsoleRoundTrip.PromotedExpression | billing/parameters.py:235-259 | moving an additional tag key to the empty primary place only moves its conjunct |
| ConsoleRoundTrip.ComparisonIsPast | billing/parameters.py:215-219 | a comparison report lies in the past and has no forecast range |
| ConsoleRoundTrip.ImportedDates | billing/parameters.py:293-311 | the reported days come back, from the relative range or from the dates |
| ConsoleRoundTrip.ImportedChecks | billing/parameters.py:176-219 | the report that comes back passes every check |
| ConsoleRoundTrip.LinkRoundTrip | billing/parameters.py:285-442 | every exportable report without absence filters and not of usage alone comes back as a report with the same AWS request up to the order of conjuncts |
| ConsoleExact.UntaggedLinkIsRefused | billing/parameters.py:408-426 | the link of untagged costs beside an active additional tag key is refused by the import |
| ConsoleExact.LinkRoundTripsExactly | billing/parameters.py:285-442 | every report that can be exported comes back from its link with the same AWS request up to the order of conjuncts if and only if it does not ask for usage alone, for the absence of one key, or for untagged costs beside an active additional tag key |
| RequestMeaning.LinkKeepsMeaning | billing/parameters.py:285-442 | a link that can come back does so with its meaning: the same lines on the same days, amounts and granularity |
| RequestMeaning.LinkKeepsPresentation | billing/parameters.py:285-442 | whenever a link is imported the chart, name, mode, forecast switch, measure but for usage alone and period compared with come back |
| ConsoleExact.ImportedReport | billing/parameters.py:331-354 | whatever a link exported from, the imported report never asks for the absence of one key, and for untagged costs only without any tag filter |
| ConsoleExact.AsksForNamedAbsence | billing/parameters.py:235-259 | a report asks AWS for the absence of one tag key exactly if it is untagged with a primary key or has an absent additional filter |
| ConsoleExact.FlaggedExpression | billing/parameters.py:235-259 | the two absence switches only add their own conjuncts |
| ConsoleExact.UntaggedTeamIsLost | billing/parameters.py:408-426 | a concrete query that is accepted and exported, and whose link is refused |
| Budgets.ClosedRows | billing/budgets.py:337-342 | which rows are left after closing or deleting the open ones |
| Budgets.EarlierMonthsKeep | billing/budgets.py:334-343 | no month before the change gets another amount |
| Budgets.LaterMonthsChange | billing/budgets.py:334-343 | from the change on the new row decides exactly in months that no closed row starting then or later covers |
| Budgets.OrderedChangesTile | billing/budgets.py:334-343 | changes in the order of their months keep the rows a gap-free tiling |
| Budgets.TilingCoversOnce | billing/models.py:398-407 | in a tiling every month from the first start on is covered by exactly one row |
| Budgets.OrderedChangeDecides | billing/models.py:398-407 | an ordered change decides its own and every later month |
| Budgets.LaterClosedRowKeepsDeciding | billing/budgets.py:334-343 | out of order a later closed row keeps deciding its months |
| Budgets.Budget.AmountFor | billing/models.py:398-407 | an override first, else a latest covering recurring amount, else none exactly when nothing covers the month |
| Budgets.Budget.SetRecurringAmount | billing/budgets.py:334-343 | open rows are closed or deleted and the new row is added; nothing else changes |
| Scheduler.SlotFor | billing/scheduler.py:24-26 | the slot is the last multiple of six hours not after now |
| Scheduler.NextSlot | billing/scheduler.py:29-30 | the next slot is after now, by six hours at most |
| Scheduler.CostsDueExactly | billing/scheduler.py:141 | costs are due exactly for a source that collects them without a first import or without a success since the last six-hour boundary |
| Scheduler.BudgetsDueExactly | billing/scheduler.py:87-96 | budgets are due exactly if none were imported since that boundary, where of a source without costs any success counts |
| Scheduler.KeysDistinct | billing/scheduler.py:128-129 | equal job keys mean equal kind, source, version and slot; slot, manual and backfill keys never collide |
| Scheduler.PendingJob | billing/scheduler.py:79-81 | the oldest active job of the source and kind for its current version or none |
| Scheduler.EnqueueOnce | billing/scheduler.py:144-156 | an automatic job is created exactly when no job of its slot key exists, finished ones included |
| Scheduler.Add | billing/scheduler.py:144-165 | one more job of a tick adds at most one row and changes none |
| Scheduler.ScheduleCosts | billing/scheduler.py:141-156 | due cost collection ends with its slot key present or work pending, after the first import also with the refresh and at midnight the discovery; what is enqueued has the months, priority and time that are due |
| Scheduler.ScheduleBudgets | billing/scheduler.py:157-166 | due budget import ends with its slot key present or work pending, at its priority and time |
| Scheduler.ScheduleSource | billing/scheduler.py:132-169 | a tick enqueues exactly what is due, with the months, priority and time demanded, and only adds rows under unused slot keys, a collection for the history before the first import and for the slot's months after it; it forgets nothing that is due, creates nothing when its keys exist, returns the oldest pending job of what is due or the one of the slot, and sets the next run to the time that job waits for or else to the next slot |
| Scheduler.TicksKeepSingleSlots | billing/scheduler.py:132-169 | any number of ticks keep at most one row per slot key |
| Scheduler.RequestCollect | billing/scheduler.py:200-216 | the job returned is active and pending for the source; it covers the request exactly unless the oldest pending job runs a shorter pull and a shorter backfill is already active |
| Scheduler.StaysWide | billing/scheduler.py:203-209 | a request for one month or the whole history keeps every backfill as wide as the history and is covered |
| Scheduler.RequestPull | billing/scheduler.py:189-218 | the job returned is active and pending; it covers the months asked exactly unless the oldest pending job runs a shorter pull and a backfill shorter than asked is already active; no other job changes; a source that is not ready changes nothing |
| Scheduler.TicksKeepWide | billing/scheduler.py:141-156 | no tick makes a backfill, so every active backfill stays as wide as the history |
| Scheduler.RenewalsAreOthers | billing/jobs.py:118-136 | heartbeat and completion change no payload and activate no row |
| Scheduler.FailuresAreOthers | billing/jobs.py:139-164 | nor do failure and recovery |
| Scheduler.LeasesAreOthers | billing/jobs.py:107-114 | nor does a lease |
| Scheduler.WideInRuns | billing/scheduler.py:189-218 | as long as every pull asks for one month or the whole history, every active backfill is as wide as the history in every reachable table |
| Scheduler.PullsAreCovered | billing/scheduler.py:189-218 | in such a run every pull returns an active job of the source for at least the months asked |
| Scheduler.ShortBackfill | billing/management/commands/sync_costs.py:41-46 | a run in which a pull of six months queues a backfill beside a running collection and a pull of a longer history returns it |
| QueryCache.ScopedAdmits | billing/query_cache.py:32-42 | a scoped request asks for the caller's accounts only, and an empty scope for no real account |
| QueryCache.StepKept | billing/query_cache.py:45-192 | every step that saves no older connection keeps the freshness invariants of rows and refreshes |
| QueryCache.ChangeKept | billing/security_signals.py:50-55 | a step forward of a connection leaves no existing row or refresh current with older data |
| QueryCache.ReturnedDataIsOwn | billing/query_cache.py:88-101 | in every run, data returned was fetched for that very operation, scoped parameters, customer, user scope, role, external id, version and ownership |
| QueryCache.OwnKept | billing/query_cache.py:163-192 | every step, forms saved late included, keeps data under the query it was fetched for, fetched with the role the query names |
| QueryCache.ForwardExactly | billing/views_management.py:327-366 | connections only move forward in a run exactly if every saved form does |
| QueryCache.ReturnedDataIsFresh | billing/query_cache.py:23-42 | when connections only moved forward, a caller whose copy has the stored version gets data fetched after the last rotation and ownership change |
| QueryCache.OldFormRevivesData | billing/views_management.py:327-366 | a run in which a form opened before a rotation and saved after it makes data from before the rotation current again |
| QueryCache.FailedRefreshKeepsData | billing/query_cache.py:163-192 | data changes only by a commit that rechecked the connection, or is cleared when the user lost access |
| QueryRefresh.GetAsks | billing/query_cache.py:90-101 | a call asks for a refresh of a new row, of one never tried and of one tried more than six hours ago, and changes nothing else |
| QueryRefresh.StartExactly | billing/query_cache.py:163-172 | a refresh starts exactly if its user may still ask and the loaded connection is enabled and the one the query names; lost permission clears the data, a changed connection keeps it |
| QueryRefresh.CommitExactly | billing/query_cache.py:183-192 | an answer is stored exactly if the connection is still enabled, still the one the query names and the user may still ask; otherwise the data stays with an error |
| QueryRefresh.AbortKeepsData | billing/query_cache.py:190-192 | a failed or interrupted refresh leaves its error and the data |
| QueryRefresh.RefreshIsServed | billing/query_cache.py:88-192 | from any state, an undisturbed refresh of a current query stores its answer, and a call for the same request with the connection as it is finds it |
| QueryRefresh.EditRaisesVersion | billing/views_management.py:356-366 | an edit saved at once raises the version exactly if it changes something |
| QueryCache.FetchPages | billing/query_cache.py:121-144 | the result joins every list of every page in order up to the page without token, and takes every other field from the last page that has it; a failed request is the first reply at which a call gives up; a repeated token and too many pages are errors |
| Activation.StepKept | billing/activation.py:345-371 | every step keeps the request invariants and the snapshots |
| Activation.SubmittedExactly | billing/models.py:709-711 | a request is accepted exactly if its source has no active one |
| Activation.MovesOnlyUnchanged | billing/activation.py:158-181 | a request moves on and completes only while the connection equals its snapshot |
| Activation.EditsInvalidate | billing/activation.py:158-181 | a rotation and every other edit that changes something leave no request of the source unchanged |
| Activation.ServiceErrorExactly | billing/activation.py:361-371 | a service error counts one attempt; the fifth fails the request, otherwise it starts again or stays where it was |
| Activation.ErrorsCounted | billing/activation.py:361-371 | the errors of a request are the service errors that happened in the run |
| Activation.EditRaisesVersion | billing/views_management.py:356-366 | an edit saved at once raises the version exactly if it changes what it edits |
| Activation.CompletedUnderOneVersion | billing/activation.py:158-181 | a request that completes finds the connection as it was approved; it had the approved version in every state from submission to completion exactly if no form saved in between wrote a lower version than it found |
| Activation.OldFormLetsRequestComplete | billing/views_management.py:327-366 | a run in which the connection is rotated while a request is verified, an old form restores it, and the request completes |
| Activation.FailsByFifthError | billing/activation.py:361-371 | a request meets at most five service errors and the fifth has failed it |
| Activation.OneActivePerSource | billing/models.py:709-711 | a source has at most one active request |
| Activation.Runtime.constructor | billing/models.py:688-711 | a runtime starts without requests |
| Activation.Runtime.ProcessActivation | billing/activation.py:345-371 | a pass fails a request exactly if it is invalid, its connection differs from the snapshot or a service error is its fifth attempt; any other success moves it one state on, and only a start and a service error count an attempt |

## Left out

- Ownership.Registry.Assign: transfer and restamping run without other statements between them; their interleavings with publications are modelled in `Stamping`.
- Ownership.Registry.Publish: the job and source locks and the overlap check are in the collection protocol, not here; discovery assigns accounts in the same way.
- Stamping.WrongExactly: assignments on first sight and offboarding are not among the steps, and a publication reads all owners at one moment.
- Console.Import: links are decoded fields; URL syntax, host checks, dimension aliases, display values and letter case are not modelled.
- Normalization.Normalize: other spellings of one date, values of the wrong JSON type and the texts of error messages are not distinguished; all refusals of an additional filter are one error.
- Scheduler.RequestPull: the part for AWS budgets, actors and the initial flag of the payload are not modelled.
- Scheduler.WideInRuns: the configured length of the history is the same in the whole run.
- Activation.Runtime.ProcessActivation: role allowlist files, approval records and the checks that make an attempt invalid are one outcome; the host-wide lock is the reason why passes do not interleave.
- A collect job of a source that collects no costs finishes without a publication; the theorem about collected months speaks of runs that report success.
- Period bookkeeping other than revision and rows, run records, error messages, durations and audit events.
- The estimated flag of project costs, previews of rules, the currency and metric labels of reconciliation.
- SQL functions of the production database; the Python paths are modelled.
- AWS, STS, IAM, DynamoDB and Lambda clients, HTTP views, forms, CSV and XLSX, authentication, MFA, redaction and row-level security; authorization is a boolean or a fingerprint.
- Hashes: a digest is the value it digests; two values with one digest are not considered.
- Report drill-down, dimension labels and shown chart data.
- Budget evaluation and alerts, imported AWS budgets, alliance, insights, optimization and invoice reconciliation.
- Deleting a customer, source or project with all its rows.
- The scheduler's loop over all sources and its jobs without a source.
