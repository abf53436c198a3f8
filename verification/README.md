# Verification of the analytics snapshot service

This project models the parts of the service that keep a derived table in step with raw
events and serve it through a versioned cache, and proves what they guarantee.

* **Snapshots and reports** (`Time`, `Aggregate`, `Ordering`, `Snapshots`, `Reports`,
  `History`, `HistoryReads`). The SQL of a recompute and of the three report queries is written as
  projections, groupings and sums over lists of rows. The rebuild is compared with the plain
  aggregate of the raw events, exactly: where they agree, where they do not, and over whole
  histories of rebuilds and arriving events.
* **The recompute protocol** (`Protocol`, `Ownership`, `Lifecycle`, `Leases`, `Tightness`,
  `Runs`). Triggers, the bounded job queue, workers, TTL locks, run rows and audit entries
  form one state machine. Each remote call is a step, may fail before or after it took
  effect, and interleaves with everything else, including restarts. `Runs` states the
  theorems over every run.
* **The cache protocol** (`Coherence`, `Keys`). A read takes separate steps for the version
  read, the lookup, the query, the second version read and the store, interleaved with
  commits and bumps.
* **The objects** (`Postgres`, `Redis`, `Recompute`, `Report`). The stores and services as
  classes whose methods follow the code call by call and record their remote calls
  (`Calls`). `Conformance` and `ReadConformance` show that a call of a service method, with
  any replies of the outside world, is a run of the state machines with one step for each
  remote call (`StepCalls`), and `Service` that any sequence of calls is, so what holds of
  every run holds of them.
* **Migrator and seeder** (`Migrator`, `Seeding`).
* **What the operations mean** (`RebuildMeaning`, `QueryMeaning`, `RecomputeEffects`,
  `ReportEffects`, `KeyMeaning`, `CacheStory`). The functions that specify the methods are
  themselves characterised, on the columns of events and rows, the requests as they were
  sent, the characters of the keys and the steps of the runs.

`dafny verify dfyconfig.toml` checks everything.

## Assumptions

* The database session is in UTC. Instants are microseconds since Monday 0001-01-01, so both
  truncations are floors to a multiple. Request dates have four-digit years.
* A recompute transaction is one atomic step that commits or leaves the table unchanged, and
  an error from COMMIT means that nothing was committed. With several workers at READ
  COMMITTED this is an approximation; with the default single worker and no events inserted
  during the transaction it is close to exact.
* Run ids and lock tokens are fresh. Text is compared by code point.
* SHA-256 has no collision among the parameter sets that are in use in the cache; the JSON
  encodings of distinct normal forms are distinct.
* A run of the system starts with no job, no lock and no cached result, over any events and
  version keys, and over tables at rest: there may be run rows of any status, with any audit
  entries, and snapshot rows that carry their ids and fit their requests. Seeding,
  successful or not, ends in such a state (`Seeding.Seeder.Seed`).
* The queue has room for at least one job where the lease bound is proved exact (a channel
  without buffer also accepts a job when a worker is waiting), and a lock TTL is positive. There the
  number of workers plus queue places is at most 2,921,940, the days from 2000 to 9999: the
  scopes of a full house must be requests that the service accepts.
* `cfg.setup` is the longest time from the acquire to the end of a trigger. "Timely" means
  that no idle worker ignores the queue and no job holds a worker longer than two minutes.
* `past`, `committed`, `bumped`, `regressed`, `queriedAt`, `readAt`, `used`, `orphans`,
  `commits`, `settled`, `tickets`, `taken`, `index`,
  `start` and `took` are history variables: they record what
  happened and decide nothing. A row's `history` lists the statuses it has had; the stored
  status is the last one.

Where code and documentation disagree, the model follows the code. docs/domain-model.md
line 70 says that only the affected bucket range is rebuilt; `Snapshots.BoundaryExact` and
`Snapshots.DayAfterWitness` say what holds instead. The same page has no transition from
pending to failed; a full queue makes it, and `Recompute.QueueFullOutcome` says exactly when.
It also says that a failed finalization is recorded as failed; in the code a run whose final
update is lost stays running, and is audited as completed unless that entry is lost too:
`Recompute.RowOutcome` and `Recompute.RebuildOutcome` say exactly what is recorded, and
`Recompute.FinalizationWitness` gives the case.

## Model

| member | source | states |
|---|---|---|
| `Snapshots.InsertedIsCleared` | internal/infrastructure/postgres/store.go:271-311 | every inserted bucket lies in the interval the DELETE clears, is aligned, carries the run id and the report's dimension, and overlaps the requested range |
| `Snapshots.RebuiltUnique` | internal/infrastructure/postgres/migrations/0001_init.sql:73 | the UNIQUE constraint survives every rebuild: the deleted rows make room for every inserted one |
| `Snapshots.RebuiltAt` | internal/infrastructure/postgres/store.go:271-311 | a rebuild replaces the rows of every bucket it clears and no row of any other bucket, report or window |
| `Snapshots.RebuiltValue` | internal/infrastructure/postgres/store.go:300-311 | a cleared cell holds the number of its events inside `[from, toExclusive)`, whatever the table held |
| `Snapshots.BoundaryExact` | internal/infrastructure/postgres/store.go:260-311 | a cleared bucket equals the plain aggregate of all its raw events if and only if none of them lies outside the requested range |
| `Snapshots.DayAfterIsEmptied` | internal/infrastructure/postgres/store.go:275-276 | a day rebuild leaves no row for the day after `date_to` |
| `Snapshots.DayAfterWitness` | internal/infrastructure/postgres/store.go:275-310 | a table that agreed with the events before a day rebuild and disagrees after it: the wording of docs/domain-model.md line 70 is too strong |
| `Snapshots.RowAccounting` | internal/infrastructure/postgres/store.go:392-396 | table size changes by exactly RowsInserted minus RowsDeleted |
| `Snapshots.InsertedTotal` | internal/infrastructure/postgres/store.go:306-311 | the inserted values sum to the number of counted events in range |
| `Snapshots.FactCount` | internal/infrastructure/postgres/migrations/0001_init.sql:14 | under the foreign key on `source_id` every report counts every event exactly once |
| `Snapshots.CrossReportTotals` | internal/infrastructure/postgres/store.go:283-368 | the three reports insert equal totals for the same range, the number of its events |
| `Snapshots.RebuildIdempotent` | internal/infrastructure/postgres/store.go:271-396 | a second identical rebuild gives the table of the first up to run id and deletes exactly what the first inserted |
| `Snapshots.RebuiltAligned` | internal/infrastructure/postgres/store.go:300-311 | a rebuild leaves only aligned buckets in a table that had only aligned ones |
| `Snapshots.RebuildsCommute` | internal/infrastructure/postgres/store.go:271-277 | rebuilds of different reports or windows, or with disjoint cleared intervals, commute up to row order |
| `Snapshots.WeekIsSumOfDays` | internal/infrastructure/postgres/store.go:300-311 | each inserted week row is the sum of the inserted day rows of that week and dimension |
| `Snapshots.BucketCountIsDistinctTimes` | internal/infrastructure/postgres/store.go:376-386 | BucketCount is the number of distinct truncated times of the events in range |
| `Snapshots.BucketCountBound` | internal/infrastructure/postgres/store.go:376-386 | an n-day rebuild reports at most n day buckets and at most floor((n + 12) / 7) week buckets |
| `RebuildMeaning.RebuiltRows` | internal/infrastructure/postgres/store.go:259-397 | on the columns of the events: after a rebuild the rows are the old ones whose day or week is not one from that of `date_from` to that of the day after `date_to`, and one for each day or week and each source slug, status or entity with events of the requested days, holding their number |
| `RebuildMeaning.SummaryCounts` | internal/infrastructure/postgres/store.go:376-396 | RowsDeleted counts the overwritten rows, RowsInserted the cells that count an event, BucketCount the days or weeks with such cells |
| `Time.TruncIsFloor` | internal/infrastructure/postgres/store.go:300-300 | date_trunc gives the aligned start of the bucket that contains the instant |
| `Time.WeekAbsorbsDay` | internal/infrastructure/postgres/store.go:300-300 | truncating to the day first does not change the week |
| `Aggregate.GroupKeepsTotals` | internal/infrastructure/postgres/store.go:300-311 | GROUP BY with a sum keeps the sum over every predicate of the key, so an aggregate of an aggregate is an aggregate |
| `Aggregate.GroupRow` | internal/infrastructure/postgres/store.go:146-153 | a row is in a grouped result exactly when its key occurs and its value is the sum over that key |
| `Ordering.OrderIsTotal` | internal/infrastructure/postgres/store.go:153-154 | each ORDER BY is asymmetric and leaves no ties between rows with distinct keys |
| `Ordering.OrderIsTransitive` | internal/infrastructure/postgres/store.go:153-154 | each ORDER BY is transitive, so with the row above it is a strict total order; count ties are broken by name |
| `Ordering.SortUnique` | internal/infrastructure/postgres/store.go:225-226 | the ordered result is determined by the set of groups |
| `Ordering.PagesCover` | internal/infrastructure/postgres/store.go:155-155 | consecutive LIMIT/OFFSET pages concatenate to a prefix of the list without gap or overlap |
| `QueryMeaning.TextLessPrecedes` | internal/infrastructure/postgres/store.go:154-154 | a name sorts before another exactly when it is a proper prefix of it, or smaller at the first difference |
| `Reports.ReadRefinesRaw` | internal/infrastructure/postgres/store.go:138-257 | right after a rebuild of any table of aligned buckets, every query whose buckets lie wholly in the rebuilt range returns the rows of the naive aggregate in the same order, for any breakdown, filter, limit and offset; the dates of the read may stick out of the rebuilt range |
| `Reports.DayReadRefinesRaw` | internal/infrastructure/postgres/store.go:138-257 | for day windows it is enough that the read range lies inside the rebuilt range, and the table may be any |
| `Reports.DayReadIsRawRange` | internal/infrastructure/postgres/store.go:150-151 | for day windows the bucketed selection is the plain half-open range on `occurred_at` |
| `Reports.ReadExact` | internal/infrastructure/postgres/store.go:138-257 | for any breakdown and filter: all pages agree with the raw events for every table of aligned buckets and every set of events that the status CHECK admits if and only if every bucket of the read lies wholly in the rebuilt range or the filter is a status that no event can have |
| `Reports.FullResultSorted` | internal/infrastructure/postgres/store.go:146-155 | before paging, the result lists every selected group once, strictly ordered, with its sum |
| `QueryMeaning.QueryRows` | internal/infrastructure/postgres/store.go:138-257 | on the columns of the snapshot rows: a result before paging has one row for each date and name, as the query selects them, of the rows in the days of the read that pass its filter, with the sum of their values |
| `QueryMeaning.QueryOrder` | internal/infrastructure/postgres/store.go:153-249 | results with a date column are in order of date and then of name; the others in order of falling count and then of name; no rows tie |
| `QueryMeaning.QueryPage` | internal/infrastructure/postgres/store.go:155-155 | a page holds the rows of the result from the offset on, at most limit of them |
| `Reports.ValidateExact` | internal/application/report_service.go:124-151 | validation accepts exactly the admissible requests, and the parameters that run are the ones that were sent |
| `Reports.PagingIsComplete` | internal/infrastructure/postgres/store.go:155-155 | the first n pages of a query concatenate to a prefix of its full result, and to all of it when n is at least its length and pages are not empty |
| `Reports.TopPrefixDominates` | internal/infrastructure/postgres/store.go:236-257 | no entity after a top-entities prefix has a higher count than one in it |
| `Reports.QueryIgnoresRowOrder` | internal/infrastructure/postgres/store.go:138-257 | a query result does not depend on the physical order of the snapshot rows |
| `Reports.QueryReadsOwnRows` | internal/infrastructure/postgres/store.go:147-152 | a query depends only on the rows of its own report |
| `Reports.RebuildKeepsOthers` | internal/infrastructure/postgres/store.go:271-277 | a rebuild of one report leaves every row of every other report |
| `Reports.NormalFormIsSound` | internal/application/report_service.go:205-214 | parameters with equal normal forms give equal results on every table |
| `Reports.NormalFormExact` | internal/application/report_service.go:205-214 | two parameter sets have one normal form exactly when they differ only within their days |
| `Reports.VolumeBreakdown` | internal/infrastructure/postgres/store.go:138-185 | the source rows of a date sum to its period row, and a date appears in one form exactly when it does in the other |
| `Reports.StatusBreakdown` | internal/infrastructure/postgres/store.go:187-234 | the period rows of a status sum to its total row, and a status appears in one form exactly when it does in the other |
| `History.LastCoveringRebuildWins` | internal/infrastructure/postgres/store.go:259-397 | after any sequence of rebuilds and arriving events each bucket holds exactly the rows of the last rebuild that cleared it, counted over the events present then, or its initial rows |
| `History.HistoryValue` | internal/infrastructure/postgres/store.go:259-397 | in numbers: a covered cell counts the in-range events of its last covering rebuild |
| `HistoryReads.HistoryRows` | internal/infrastructure/postgres/store.go:259-397 | the same law on the columns of the events: after any history the rows of a bucket count the events that had arrived when its last rebuild ran |
| `HistoryReads.EventsOfHistory` | internal/infrastructure/postgres/store.go:259-397 | the events after a history are the first ones and the arrivals, in order |
| `History.AlwaysUnique` | internal/infrastructure/postgres/migrations/0001_init.sql:73 | the UNIQUE constraint holds after every history |
| `History.AlwaysAligned` | internal/infrastructure/postgres/store.go:259-397 | every history of rebuilds and arrivals keeps a table of aligned buckets aligned |
| `HistoryReads.CurrentReadRefinesRaw` | internal/infrastructure/postgres/store.go:138-397 | after any sequence of rebuilds and arriving events, for any breakdown, filter, limit and offset: a read whose buckets were each last rebuilt as a whole, with no event of theirs since, returns the rows of the naive aggregate of the events present now, in the same order |
| `HistoryReads.RawRows` | internal/infrastructure/postgres/store.go:138-397 | the naive aggregate on the columns of the events: a row for each date and name with events in the read that pass its filter, holding their number |
| `Keys.LockKeyInjective` | internal/application/recompute_service.go:216-218 | the lock key determines slug, window and both dates for arbitrary slugs |
| `Keys.LockKeyIsScope` | internal/application/recompute_service.go:216-218 | two requests share a lock if and only if they have the same report, window and calendar days |
| `Keys.CivilDateExact` | internal/application/recompute_service.go:216-218 | the calendar date of a day number, stepped day by day, satisfies the closed form of the Gregorian calendar |
| `Keys.FourDigits` | internal/application/recompute_service.go:216-218 | a date is below the bound that the model uses if and only if its year has at most four digits |
| `KeyMeaning.DateOfInstant` | internal/application/recompute_service.go:216-218 | the calendar date of an instant is the one that is as many days after 0001-01-01 in the Gregorian calendar |
| `KeyMeaning.MondayOrigin` | internal/infrastructure/postgres/store.go:300-300 | weeks start on Mondays of that calendar: 2024-01-01 starts one |
| `KeyMeaning.LockKeyReads` | internal/application/recompute_service.go:216-218 | the text of a lock key: prefix, report name, window name and the two dates as eight digits of year, month and day |
| `Keys.ReportKeyInjective` | internal/application/report_service.go:220-221 | the report key determines slug, version and digest for arbitrary slugs |
| `KeyMeaning.DecimalNumber` | internal/application/report_service.go:220-221 | the decimal text of a version has its value and no leading zero |
| `KeyMeaning.VersionKeyReads` | internal/infrastructure/redis/store.go:98-100 | the text of a version key: prefix and report name |
| `Keys.KeySpacesDisjoint` | internal/infrastructure/redis/store.go:98-100 | lock keys, version keys and the entry keys of the served reports never coincide |
| `Coherence.StepKeepsCoherent` | internal/application/report_service.go:59-94 | every step of every reader and writer, with any reply, keeps the cache invariant |
| `Coherence.RunKeepsCoherent` | internal/application/report_service.go:59-94 | the cache invariant holds after every interleaving of readers, commits, bumps and evictions |
| `Coherence.StaleEntryHasCause` | internal/application/report_service.go:153-222 | an entry under the current version that disagrees with the current table was left by a commit with no bump after it, or its query ran before the last bump and its store-time version read after it |
| `CacheStory.StaleEntryStory` | internal/application/report_service.go:153-222 | the same law on the steps of a run, without history variables, where the version exists at the start: a stale current entry means a commit of its report with no bump after it, or a reader that queried the rows of the entry, then a bump, then a version read of that reader |
| `CacheStory.TimesAreSteps` | internal/application/report_service.go:153-222 | the recorded times of the last commit and the last bump of a report are the numbers of these steps |
| `Coherence.ResponseIsPastResult` | internal/application/report_service.go:59-96 | every response, hit or miss, is the report for its own parameters on some table state that existed |
| `Coherence.FreshResponse` | internal/application/report_service.go:71-96 | a response whose query ran after the last commit of its report is the current report |
| `Coherence.WarmVersionsGrow` | internal/infrastructure/redis/store.go:61-84 | once the version key exists and no reader is about to initialise it, the version only grows in every run |
| `Coherence.InitialisationRace` | internal/infrastructure/redis/store.go:64-68 | without that condition a run exists in which the initialising SET moves the version back |
| `Coherence.LateStoreWitness` | internal/application/report_service.go:176-192 | a run that stores the result of an old table under the version that follows the rebuild |
| `Protocol.StepMoves` | internal/application/recompute_service.go:66-214 | every step but a restart, which removes every job, moves at most one job, from one place to a free place, and disturbs no other trigger, queue slot or worker |
| `Protocol.RestartLoses` | internal/application/recompute_service.go:56-64 | a restart loses triggers, queue, jobs and readers, and leaves locks, tables, versions and entries |
| `Ownership.StepKeepsOwnership` | internal/application/recompute_service.go:92-136 | every step keeps: distinct tokens, each unexpired claim holds its lock, each lock belongs to a live job or to a recorded orphan |
| `Ownership.ScopeExclusion` | internal/application/recompute_service.go:92-102 | of two live jobs with one scope at least one has outlived its lease |
| `Ownership.OnlyOwnScopeConflicts` | internal/application/recompute_service.go:100-102 | a conflict is caused by a live job of the same scope or by an orphaned lock of it |
| `Ownership.ReleaseIsOwn` | internal/infrastructure/redis/store.go:12-17 | a release removes only a lock that still carries the releaser's token, also after expiry |
| `Ownership.QuiescentHoldsNoLock` | internal/application/recompute_service.go:164-213 | with nothing live and nothing orphaned, no lock is held |
| `Ownership.OrphansHaveCause` | internal/application/recompute_service.go:105-213 | a lock outlives its job only after a failed release, an acquire lost in transit or a restart |
| `Lifecycle.StepKeepsRecorded` | internal/application/recompute_service.go:104-189 | every step keeps each run id with at most one trigger, queue slot or worker, each row and its audit entries in step with the stage of that job, and the rows and entries of earlier runs as they were |
| `Lifecycle.StepGrows` | internal/infrastructure/postgres/store.go:502-532 | status histories only grow and a terminal row never changes, although no UPDATE checks the status |
| `Lifecycle.StepKeepsLineage` | internal/infrastructure/postgres/store.go:296-310 | every labelled snapshot row belongs to a run of its own report and window whose range overlaps the bucket, and which committed or was there at the start |
| `Lifecycle.StepKeepsCommits` | internal/infrastructure/postgres/store.go:388-396 | each commit keeps the counts of exactly what it did to the table it found |
| `Lifecycle.RowsBelongToSuccess` | internal/infrastructure/postgres/store.go:296-310 | no snapshot row carries the id of a pending or failed run, except where it did at the start |
| `Leases.StepKeepsLease` | internal/application/recompute_service.go:147-160 | every timely step keeps the waiting-time invariant of queue, workers and claims |
| `Leases.QueueWait` | internal/application/recompute_service.go:147-156 | a queued job waits at most ceil(Q / W) job times |
| `Leases.ClaimAge` | internal/application/recompute_service.go:92-160 | no live claim is older than set-up time plus (ceil(Q / W) + 1) job times |
| `Leases.JobAge` | internal/application/recompute_service.go:127-160 | every job that was sent and has not ended is at most (ceil(Q / W) + 1) job times past its send, in the queue or with a worker |
| `Leases.DefaultsMissTheBound` | internal/infrastructure/config/config.go:39-41 | queue 64, one worker and 15 minutes do not satisfy the bound, whatever the set-up time |
| `Tightness.LeaseBoundExact` | internal/application/recompute_service.go:66-160 | for any number of workers, any queue of at least one place and any set-up time: above set-up plus (ceil(Q / W) + 1) job times every timely run keeps scopes exclusive; and if only the timely runs of requests that the service accepts for its three reports do, the TTL exceeds that bound |
| `Tightness.DefaultsNotExclusive` | internal/infrastructure/config/config.go:39-41 | the default configuration has a timely run of requests that the service accepts with two live jobs in one scope |
| `Runs.EveryRunExcludes` | internal/application/recompute_service.go:92-214 | in every run from any state whose locks are owned, two live jobs of one scope coexist only past the expiry of one of their leases |
| `Runs.TimelyRunsExclude` | internal/application/recompute_service.go:92-160 | in every timely run under the bound, from any state that satisfies the lock and waiting-time invariants, no lock expires before its job ends and scopes are exclusive |
| `Runs.AcceptedJobsEnd` | internal/application/recompute_service.go:127-160 | in every timely run, (ceil(Q / W) + 1) job times after the queue accepts a job no trigger, queue slot or worker has its run |
| `Runs.CleanRunsLeaveNoLock` | internal/application/recompute_service.go:92-214 | in every run with no restart, no failed release and no lost acquire, from any state without orphaned locks, a quiescent system holds no lock |
| `Runs.TableIsReplay` | internal/application/recompute_service.go:168-168 | whatever the interleaving and the failures, the table is the replay of the committed rebuilds and arrivals alone |
| `Runs.EveryBucketHasLastRebuild` | internal/infrastructure/postgres/store.go:259-397 | in every run from any state each bucket holds the rows of the last committed rebuild that cleared it |
| `Runs.CurrentReadIsRaw` | internal/infrastructure/postgres/store.go:138-257 | in every run a report whose buckets were each last rebuilt as a whole, with no event of theirs since, returns the rows of the naive aggregate of the events |
| `Runs.CurrentAnswerIsRaw` | internal/application/report_service.go:59-97 | so does every answer, from the cache or not, to a query made after the last commit of the report |
| `Runs.EarlierRunsStay` | internal/infrastructure/postgres/store.go:502-532 | in every run the rows that were there at the start, such as seeded ones, and their audit entries stay exactly as they were, and none of these runs commits |
| `Runs.EveryHistoryLegal` | internal/application/recompute_service.go:104-189 | in every run each row created since the start has a history that is a prefix of pending, running, completed or failed, or is pending, failed |
| `Runs.TerminalIsForever` | internal/infrastructure/postgres/store.go:502-532 | in every run a terminal row, earlier or new, stays exactly as it is |
| `Runs.OutcomesAreTruthful` | internal/application/recompute_service.go:168-189 | in every run a completed row created since the start has a rebuild among the changes of the table, and its summary counts that rebuild on the table and the events that the changes before it had left; a failed or pending row has none |
| `Runs.CommitsAreChanges` | internal/application/recompute_service.go:168-168 | every recorded commit is one of the changes that make up the table, made to the table and events that the changes before it had left |
| `Runs.RowsHaveLineage` | internal/infrastructure/postgres/store.go:296-310 | in every run each labelled row belongs to a run of its report and window whose range overlaps the bucket, and which was there at the start or has committed and is running or completed |
| `Runs.AuditTrailInOrder` | internal/application/recompute_service.go:110-209 | in every run the audit entries of a run created since the start are a subsequence of triggered then exactly one of completed and failed; completed entries carry committed counts, failed ones exclude a commit, and a run never marked running, such as a queue-full run, has at most triggered, whichever of its updates were lost |
| `Runs.EveryStaleEntryHasCause` | internal/application/report_service.go:153-222 | the stale-entry theorem in every run of the whole system, for a report whose version was never set back |
| `Runs.VersionsGrow` | internal/infrastructure/redis/store.go:61-84 | from a start whose version key exists, the version only grows in every run of the whole system |
| `Runs.StaleAfterWarmStart` | internal/application/report_service.go:153-222 | from such a start every stale entry under the current version has one of the two causes, in every run of the whole system |
| `Postgres.Store.RecomputeReport` | internal/infrastructure/postgres/store.go:259-397 | a successful call installs the rebuilt table and returns its counts; any failure, at any statement, leaves the table, and the error is Invalid exactly for an unknown report |
| `Postgres.Store.CreateRun` | internal/infrastructure/postgres/store.go:399-441 | inserts a row under the fresh id unless the insert did not take effect |
| `Postgres.Store.MarkRunRunning` | internal/infrastructure/postgres/store.go:502-509 | appends the status to that row only |
| `Postgres.Store.MarkRunCompleted` | internal/infrastructure/postgres/store.go:511-523 | appends the status and stores the summary in that row only |
| `Postgres.Store.MarkRunFailed` | internal/infrastructure/postgres/store.go:525-532 | appends the status to that row only |
| `Postgres.Store.CreateEntry` | internal/infrastructure/postgres/store.go:534-545 | appends the entry unless the insert did not take effect |
| `Postgres.UpdatesMove` | internal/infrastructure/postgres/store.go:502-532 | an update appends its status to the history of its row and leaves every request and every other row; a completion stores its summary |
| `Postgres.Store.RunReportQuery` | internal/application/report_service.go:99-122 | the page of the report, NotFound for an unknown report, Internal when the query or a row scan fails |
| `Postgres.CollectRows` | internal/infrastructure/postgres/store.go:626-646 | all rows in order, or an error if any scan fails |
| `Redis.Store.TryAcquire` | internal/infrastructure/redis/store.go:86-88 | sets the lock with its expiry only if the key is free, and reports whether it was |
| `Redis.Store.Release` | internal/infrastructure/redis/store.go:90-96 | removes the key if and only if it carries the caller's token; no other lock changes |
| `Redis.Store.Get` | internal/infrastructure/redis/store.go:45-55 | the stored value, or none, or an error |
| `Redis.Store.Set` | internal/infrastructure/redis/store.go:57-59 | overwrites the key unless the write did not take effect |
| `Redis.Store.GetVersion` | internal/infrastructure/redis/store.go:61-80 | the stored version; on nil writes 1 in a second call, and answers 1 only if that write was acknowledged |
| `Redis.Store.BumpVersion` | internal/infrastructure/redis/store.go:82-84 | adds one, counting an absent key as zero |
| `Recompute.RecomputeService.Trigger` | internal/application/recompute_service.go:66-136 | the result, the whole new state of queue, locks, runs and audits, and the remote calls in their order, for every combination of replies |
| `Recompute.AcceptExact` | internal/application/recompute_service.go:67-78 | exactly the requests with a known window, ordered dates and few enough days are accepted, and slug, window and both dates go on as they were sent |
| `RecomputeEffects.TriggerRefused` | internal/application/recompute_service.go:67-82 | a request that is not acceptable, or whose report is not found, changes nothing |
| `RecomputeEffects.TriggerWithoutLock` | internal/application/recompute_service.go:92-102 | a taken lock is a conflict, and a lost acquire leaves at most the lock itself |
| `RecomputeEffects.TriggerWithLock` | internal/application/recompute_service.go:92-136 | the whole new state and the answer for every combination of replies once the lock is there: queue, lock, row and audit entry for the request that was sent |
| `RecomputeEffects.TriggerSucceeds` | internal/application/recompute_service.go:66-136 | a call succeeds exactly when it is acceptable, gets its lock, inserts its row and finds room, and then exactly one job and one row with its slug, window and dates are new |
| `Recompute.RecomputeService.ProcessJob` | internal/application/recompute_service.go:158-214 | the whole new state and the remote calls in their order for every combination of replies: a commit leads to completion, bump and log, anything else to failure and log, and the lock is released last on every path |
| `RecomputeEffects.VersionsAfterJob` | internal/application/recompute_service.go:191-195 | the version of the job's report grows by one, from zero if absent, exactly when its rebuild commits and the increment takes effect; no other version changes |
| `RecomputeEffects.OtherVersionsStay` | internal/application/recompute_service.go:191-195 | every other key of the version store, of whatever form, keeps its value or its absence |
| `RecomputeEffects.LocksAfterJob` | internal/application/recompute_service.go:164-213 | exactly the lock with the job's token goes, on every path, when the release takes effect |
| `RecomputeEffects.RowsAfterJob` | internal/application/recompute_service.go:162-189 | only the job's row changes, by the updates that take effect, and a completed row has the counts of its rebuild |
| `RecomputeEffects.AuditAfterJob` | internal/application/recompute_service.go:171-209 | one entry for the outcome of the rebuild, if it was tried and the insert takes effect |
| `RecomputeEffects.TableAfterJob` | internal/application/recompute_service.go:168-168 | the table is rebuilt exactly when the rebuild commits; queue, clock, sources and events stay |
| `Recompute.RowOutcome` | internal/application/recompute_service.go:162-191 | for every combination of replies, exactly when a pending row ends completed, failed, running or pending: only a committed rebuild completes it, only a failed one fails it, and without the final update it stays running |
| `Recompute.RebuildOutcome` | internal/application/recompute_service.go:168-209 | the table and the outcome entry for every combination of replies; neither depends on the final update of the row |
| `Recompute.FinalizationWitness` | internal/application/recompute_service.go:187-209 | a failed finalization leaves the row running and its run audited as completed, against line 64 of docs/domain-model.md |
| `Recompute.QueueFullOutcome` | internal/application/recompute_service.go:66-136 | exactly when a Trigger call takes a new row from pending to failed: its job meets a full queue and the update is applied; with the update lost the row stays pending |
| `Recompute.RecomputeService.Worker` | internal/application/recompute_service.go:147-156 | a worker handles the queue in order, one job for each element of the replies, until none is left, and makes their remote calls one job after the other |
| `RecomputeEffects.WorkerTakesNext` | internal/application/recompute_service.go:147-156 | one reply more handles one job more, the next of the queue |
| `Conformance.TriggerIsRun` | internal/application/recompute_service.go:66-136 | every Trigger call, whatever the replies, is the run of the protocol machine with one step for each remote call and the reply that it got; it ends with no trigger of its own and shows the same stores |
| `Conformance.ProcessIsRun` | internal/application/recompute_service.go:147-214 | receiving and processing a job, whatever the replies, is the run of the protocol machine with one step for each remote call and the reply that it got; it leaves the worker idle and shows the same stores |
| `StepCalls.TriggerStepsAreCalls` | internal/application/recompute_service.go:66-136 | the steps of a Trigger call are the remote calls that the method makes, in order, with the replies that it got |
| `StepCalls.ProcessStepsAreCalls` | internal/application/recompute_service.go:158-214 | the steps of a job are the remote calls that processJob makes, in order: rebuild, final update, bump, entry, release |
| `Service.CallIsRun` | internal/application/recompute_service.go:66-214 | one whole call from a state between calls, whatever the replies, is the run of the protocol machine with the steps of the call, to a state between calls |
| `Service.CallsAreRun` | internal/application/recompute_service.go:66-214 | every sequence of Trigger calls, worker turns, clock ticks and arriving events, with any replies, on stores that may hold earlier runs, is the run of the protocol machine with the steps of the calls, over the same stores |
| `Service.ServiceHistory` | internal/application/recompute_service.go:66-214 | after every such sequence on stores at rest (as after seeding), the earlier run rows and their audit entries are unchanged, each new run row has a legal history and audit entries in order, and the snapshot rows with a run id fit that run, which committed if it is new |
| `Report.ReportService.BuildKey` | internal/application/report_service.go:194-222 | the key of an entry under the version that is current at the call |
| `Report.ReportService.GetCachedResult` | internal/application/report_service.go:153-174 | the rows of a hit, none for a miss, an error when the version read or the lookup fails, and the versions afterwards |
| `Report.ReportService.StoreCachedResult` | internal/application/report_service.go:176-192 | the entries and versions afterwards; the key is built from a second version read |
| `Report.ReportService.RunReport` | internal/application/report_service.go:49-97 | the answer, the whole new state and the remote calls in their order for every combination of replies; cache errors never fail the report |
| `ReportEffects.AnswerRefused` | internal/application/report_service.go:49-57 | a definition that is not found or parameters that are not admissible decide the answer, and nothing changes |
| `ReportEffects.AnswerUncached` | internal/application/report_service.go:71-96 | without caching the table answers for the parameters that were sent, and nothing changes |
| `ReportEffects.AnswerHit` | internal/application/report_service.go:59-69 | a hit answers with the entry under the version that is read first; only an absent version may be set |
| `ReportEffects.AnswerMiss` | internal/application/report_service.go:71-96 | a miss answers with the table and stores a successful answer under the version that is read last |
| `ReportEffects.NextReadIsNew` | internal/application/report_service.go:153-222 | after a rebuild that commits and a bump that takes effect, the next cached read of the report looks under the next version, and without an entry there answers from the table |
| `ReadConformance.ReadIsRun` | internal/application/report_service.go:49-97 | every valid RunReport call, whatever the replies, is the run of the reader machine with one step for each remote call and the reply that it got, for the parameters that were sent, with the same answer, through string keys |
| `StepCalls.ReadStepsAreCalls` | internal/application/report_service.go:49-97 | the steps of a RunReport call are the remote calls that the method makes, in order: version, lookup, query, version, store |
| `ReadConformance.AnswerIsPastResult` | internal/application/report_service.go:49-97 | every answer of RunReport is the report, for the parameters that were sent, of some table state that existed |
| `Migrator.ListMigrationFiles` | internal/infrastructure/postgres/migrator.go:98-120 | exactly the SQL files of the directory, in byte order, each once |
| `Migrator.SqlEnding` | internal/infrastructure/postgres/migrator.go:109-111 | an SQL file is a name that ends in .sql |
| `Migrator.Database.IsApplied` | internal/infrastructure/postgres/migrator.go:89-96 | given that effects and records agree, a file counts as applied exactly when its effect is committed; an error exactly when the lookup fails |
| `Migrator.Database.Up` | internal/infrastructure/postgres/migrator.go:25-73 | the schema and the outcome for every fault: nothing happens before the listing succeeds, and the first error stops the loop |
| `Migrator.RestartsExactlyOnce` | internal/infrastructure/postgres/migrator.go:35-70 | over any sequence of calls that may fail anywhere, each effect is committed at most once and recorded exactly when it is |
| `Migrator.SuccessIsComplete` | internal/infrastructure/postgres/migrator.go:35-72 | a successful Up leaves every file recorded and forgets none |
| `Migrator.UpExact` | internal/infrastructure/postgres/migrator.go:35-72 | exactly what Up does for every fault: it commits, in order, the unrecorded files before the first one that it stops at, and succeeds exactly when it stops at none |
| `Migrator.UpTwice` | internal/infrastructure/postgres/migrator.go:36-42 | after a successful Up, a further Up over the same files changes nothing, whatever fails |
| `Migrator.CommitOrderIsSorted` | internal/infrastructure/postgres/migrator.go:115-117 | if files are only ever added at the end of the sort order, the overall commit order is sorted order |
| `Migrator.LateFileWitness` | internal/infrastructure/postgres/migrator.go:115-117 | a file that sorts before an applied one is committed after it |
| `Seeding.SeedRangeExact` | internal/infrastructure/postgres/seed.go:77-89 | all generated events fall in the seeded range if and only if the first reading of the Go clock is not on a calendar day after the hour that follows the database clock's hour |
| `Seeding.SeedWithinTheHour` | internal/infrastructure/postgres/seed.go:77-89 | a Go clock read less than an hour after the database clock meets that condition |
| `Seeding.SlowSeedWitness` | internal/infrastructure/postgres/seed.go:77-89 | a two-hour delay across midnight leaves an event out |
| `Seeding.GeneratedColumns` | internal/infrastructure/postgres/seed.go:50-86 | source, status, entity and hour of the k-th generated event |
| `Seeding.SeedOneExact` | internal/infrastructure/postgres/seed.go:103-128 | exactly when one seedSnapshots call rebuilds the table, and when it succeeds |
| `Seeding.Seeder.SeedSnapshots` | internal/infrastructure/postgres/seed.go:103-128 | one rebuild, and one more run row, completed with no other row changed, when the call succeeds; a failing call leaves no row, or one whose history starts with running; stores at rest stay at rest either way |
| `Seeding.Seeder.SeedAll` | internal/infrastructure/postgres/seed.go:90-97 | the six rebuilds in loop order, stopped by the first failure; on success six completed runs; stores at rest stay at rest |
| `Seeding.Seeder.Seed` | internal/infrastructure/postgres/seed.go:21-101 | unless forced leaves a database with events alone; else generates all events or none and rebuilds the six families over the sources' greatest ids; fails when a demo source is missing; whether it succeeds or not, stores at rest stay at rest |
| `Seeding.MaxId` | internal/infrastructure/postgres/seed.go:44-50 | the greatest id among the sources of a slug, none exactly when there is no such source |
| `Seeding.RebuildLeavesAtRest` | internal/infrastructure/postgres/seed.go:103-128 | a new run row, with or without the rebuild for it, leaves every labelled row with a run row that fits it, so the service theorems apply to the store |
| `Seeding.SeedCoversEverything` | internal/infrastructure/postgres/seed.go:50-97 | after seeding an empty database each of the six report and window families totals exactly the number of generated events |

## Left out

- HTTP routing, JSON envelopes, error-to-status mapping and authentication: settled by reading one branch each.
- Connection pools, contexts and logging: each remote call is a step that succeeds or fails. The reuse of an expired worker context for cleanup appears as failing cleanup steps.
- The JSON payload of a cached result, its generated-at and execution-time fields, `row_count` and `source_system` (which follow from the rows and `cacheHit`); a corrupt payload appears as a failed lookup.
- Entry TTLs: an entry may be evicted at any step.
- A service without a cache: the cache is always present. A report whose cache TTL is zero is modelled.
- `requested_by`, `requested_via`, audit metadata and actors, error messages, `computed_at`, `requested_at`, `started_at`, `finished_at`.
- 64-bit overflow of counts, versions and run ids; the saturation of Go durations beyond 292 years in the range check.
- Row-level interleaving inside one transaction, and two processes that share the stores.
- Time zones and daylight saving.
- Report catalogue and audit listings, health checks and configuration parsing: no ordering there is total, and nothing hard is promised.
- Liveness: queued work is lost on shutdown and the code promises nothing under failures. What is proved needs no progress, except where a timely run is named.
- `GetRun`: a read of one row.
- Recompute.RecomputeService.Worker: handles as many jobs as the environment gives replies for; the endless loop and the shutdown signal are steps of the protocol machine.
- Service.CallsAreRun: calls one after another; calls that interleave are runs of the machine directly, step by step.
- ReadConformance.ReadIsRun: one read without interference, of one of the three served reports.
- Reports.ReadRefinesRaw: assumes a table of aligned buckets, which rebuilds insert and `History.AlwaysAligned` keeps; the facts of a rebuild are the events, each counted at least once.
- Coherence.WarmVersionsGrow: assumes that no initialisation is pending; `Coherence.InitialisationRace` shows that this is needed.
- Coherence.LateStoreWitness: for a day query inside the rebuilt range that selects some event; the rest of the parameters is arbitrary.
- Migrator.CommitOrderIsSorted: assumes that files are only added at the end; `Migrator.LateFileWitness` shows that this is needed.
- Tightness.LeaseBoundExact: assumes a queue of at least one place, because a channel without buffer is not modelled, and no more workers and queue places than there are distinct days to ask for.
- Tightness.DefaultsNotExclusive: says that such a run exists; in the one constructed, each earlier job ends with a failed update to running after its full two minutes.
- Runs.CleanRunsLeaveNoLock: assumes successful releases and no restart; `Ownership.OrphansHaveCause` names these as the only causes of a lock left behind.
- Runs.EveryHistoryLegal: speaks of rows created since the start; what another process did before is not known, and `Runs.EarlierRunsStay` says that it is kept.
- Runs.TimelyRunsExclude: assumes the bound on the TTL; `Tightness.LeaseBoundExact` shows that it is needed.
- Seeding.SeedCoversEverything: assumes that the Go clock is read less than an hour after the database clock; `Seeding.SeedRangeExact` gives the exact condition.
- Seeding.Seeder.Seed: the random payload, amounts and processing times of generated events are not modelled, since no snapshot counts them.
