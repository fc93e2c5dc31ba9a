# ddns-rs: a Dafny model and its proofs

ddns-rs keeps the address records of a DNS name equal to the addresses of an interface. This project models the
parts of it where that can go wrong and proves what they guarantee, for every order in which a hash set is walked,
every point at which a remote call fails, and every interleaving of the concurrent parts.

| file | what it models |
|---|---|
| `Net.dfy` | address families, addresses, a few sequence facts |
| `RecordStore.dfy` | the remote store: records by id, the mutating calls of the `Provider` trait, a provider behind a fallible connection |
| `Reconcile.dfy` | `check_and_update`: the snapshot, the hash sets keyed by address, the forced rewrites and the three loops |
| `ReconcileLaws.dfy` | the exact record count of every address after every call; convergence, with duplicates and after errors |
| `ReconcileBounds.dfy` | no outage, the number of calls, the report, the forced path |
| `Interleaving.dfy`, `FakeInterleaving.dfy` | an IPv4 and an IPv6 reconcile on one provider, interleaved call by call: over the record store, and on the `Fake` provider itself |
| `TaskRetry.dfy` | `run_task` repeated after failures in either family: convergence, and reports that get lost |
| `RunTask.dfy`, `Tasks.dfy` | `run_task`: the loop over families, the legality check, the notifiers; `create_task` |
| `FakeProvider.dfy`, `FakeLaws.dfy` | the `Fake` provider as an object and as a step system: caches, locks, id counter, channel, expiry worker |
| `FakeHistory.dfy` | where its records come from, the order of its channel |
| `FakeExpiry.dfy`, `FakeTtl.dfy`, `FakeRefines.dfy` | expiry safety, freedom from deadlock, which records can still expire and when, refinement of the record store |
| `Supervisor.dfy` | the `select_all` loop of `run`, with either way of removing a finished future |
| `ShutdownLatch.dfy` | `Shutdown::shutdown` and `Shutdown::receive` as polls |
| `GracefulStop.dfy`, `GracefulProgress.dfy` | `run` poll by poll, future by future, over the latch: supervision, shutdown, join; that every task has its turn and `run` gets to its end |
| `Cloudflare.dfy`, `ZoneNames.dfy` | the paged listing and the zone name |

`dafny verify dfyconfig.toml` checks the project.

Conventions. A method that changes an object states its whole new state by a function of the old one; the lemmas are
about those functions. Remote faults are a script (`Provider.fates`): a request is served, refused, or served with its
answer lost, so a failed call may have taken effect. A run of `check_and_update` is described by its plan (the orders
the hash sets happened to produce), the stores after each call, and its outcome (`Reconcile.IsRun`); a forced rewrite is
treated as a pair like any other, which gives one counting law for the whole run.

Three promises of the documentation or the code do not hold in general. For each the model gives a run that breaks it
and the exact condition under which it is kept:

- `force` is documented to rewrite a record that is already right (its README.md:128-129). std's set intersection walks the
  smaller set; when the distinct published addresses outnumber the targets and they overlap, the items come from the
  target side, carry no record, and `unwrap` panics. `UnwrapFailsIff` derives this from the hash sets for every order,
  `CheckAndUpdate` promises it of the code for every listing that succeeds, and `ForcedPanicExample` gives an input on
  which every such run panics. The second meaning of `force`, for the `Fake` provider (README.md:166-168), is that
  notifications go out although nothing changed; `ExactReport` covers it.
- The `ttl` of the `Fake` provider is documented to be the time after which a record is deleted (README.md:170-171).
  This fails in two ways. The worker loses the ticket it waits on when another branch of its `select!` wins, and the
  record then stays for good (`TtlPromiseFails`); `MayFireIff` says which tickets can fire at all, at whatever time.
  And the heap hands out the latest deadline first, so a record waits for those created after it even if no ticket is
  lost (`TtlPromiseFailsInOrder`). Once all tickets have reached the worker and no further create comes, a record can go
  exactly when the deadlines of all the worker's tickets have passed (`ExpiresWhenAllAreDue`), hence at its own deadline
  if and only if none is later (`OnTimeIff`).
- The supervisor looks up the task to restart by position. If `select_all` fills the gap with the last future, this is
  right in every run if and only if there are at most two tasks (`SwapKeepsEveryTaskIff`).

One more thing is lost without a promise being broken: the `?` at src/main.rs:133 leaves after the records have changed,
so a report whose `send` failed does not reach the notifiers after it, and while the answers stay the same no later
unforced run repeats it (`LostReportIff`).

## Model

| member | source | states |
|---|---|---|
| RecordStore.Provider.GetDnsRecord | src/providers/mod.rs:23 | a listing holds every record of the family once, in an unpredictable order, or the request failed |
| RecordStore.Provider.CreateDnsRecord | src/providers/mod.rs:24 | success means one new record under an unused id; an error leaves the store as before or with the record created |
| RecordStore.Provider.UpdateDnsRecord | src/providers/mod.rs:25 | the record of that id carries the new address; fails without effect when the id is unknown |
| RecordStore.Provider.DeleteDnsRecord | src/providers/mod.rs:26 | the record of that id is gone and nothing else; fails without effect when the id is unknown |
| RecordStore.EffectCount | src/providers/mod.rs:24-26 | a call moves exactly one record out of the address it overwrites and into the one it writes |
| RecordStore.EffectView | src/providers/mod.rs:23-26 | a call inside one family is the same call on that family's records and invisible to the other family |
| RecordStore.EffectSize | src/providers/mod.rs:24-26 | only creates and deletes change how many records a family has |
| Reconcile.CollectRecords | src/providers/mod.rs:29-53 | elements are equal by address, so one listed record per address survives in the set |
| Reconcile.CollectTargets | src/providers/mod.rs:78-84 | the target side holds each distinct address once and no records |
| Reconcile.Difference | src/providers/mod.rs:92-93 | every address only in the first set, once, with the first set's element, in any order |
| Reconcile.Intersection | src/providers/mod.rs:95 | every shared address once, with the element of the smaller set |
| Reconcile.Decisions | src/providers/mod.rs:78-97 | either the forced loop fails on its first item, or every item to rewrite or remove carries its record |
| Reconcile.ForceUpdates | src/providers/mod.rs:94-103 | each shared record is rewritten with its own address and reported; a missing record is a panic before any call |
| Reconcile.PairUpdates | src/providers/mod.rs:104-112 | first stale record takes first missing address until one list is empty; exactly those addresses are reported |
| Reconcile.DeleteRest | src/providers/mod.rs:113-116 | every stale record left over is deleted, in order |
| Reconcile.CreateRest | src/providers/mod.rs:117-121 | every missing address left over is created with the given ttl, in order, and reported |
| Reconcile.UnwrapFailsIff | src/providers/mod.rs:94-97 | for every order of the hash sets: the forced loop meets an item without a record iff the distinct published addresses outnumber the distinct targets and they overlap, and then it is the first |
| Reconcile.SentCalls | src/providers/mod.rs:92-121 | read off the log: creates are of missing targets with the ttl asked for, updates overwrite a stale record with a missing target or, forced, a right one with itself, deletes are of stale records; no record is touched and no address written twice |
| Reconcile.ReportIsWritten | src/providers/mod.rs:66-125 | a report lists the addresses written, in the order of the calls |
| Reconcile.CheckAndUpdate | src/providers/mod.rs:65-126 | the calls sent, the stores passed through and the outcome form a run of a plan for this snapshot; every create sent has the ttl asked for and a target, every other call a record of the snapshot, and the report is what was written; if the listing succeeds it panics exactly when the forced path is doomed, and without remote faults it never fails |
| Reconcile.HeldAlong | src/providers/mod.rs:104-116 | a record still to be dealt with is found as it was listed, whatever happened to the others |
| ReconcileLaws.PrefixCount | src/providers/mod.rs:94-121 | after any number of calls, each address has lost and gained exactly the records of the pairs done so far |
| ReconcileLaws.AnyMoment | src/providers/mod.rs:94-121 | at every moment an address has its old count or its final one; all targets are served once the missing ones are through |
| ReconcileLaws.Monotone | src/providers/mod.rs:94-121 | during a run a target only gains records and any other address only loses them |
| ReconcileLaws.CompleteRun | src/providers/mod.rs:65-126 | a complete run adds one record to each unpublished target, takes one from each published non-target, and changes no other address |
| ReconcileLaws.CompleteRunPublishes | src/providers/mod.rs:78-121 | afterwards the targets are published and exactly those stale addresses that had two or more records; the other family keeps its counts |
| ReconcileLaws.ConvergesIff | src/providers/mod.rs:78-121 | the published set equals the target set afterwards iff no stale address was duplicated |
| ReconcileLaws.StaysDistinct | src/providers/mod.rs:92-121 | distinct addresses stay distinct at every moment of any run, whatever its outcome |
| ReconcileLaws.RetryConverges | src/providers/mod.rs:92-121 | one family: after any number of runs with any targets, each cut off anywhere by an error, applied or not, one complete run publishes exactly its targets, one record each |
| ReconcileLaws.RepeatedRuns | src/providers/mod.rs:78-121 | after k complete runs a stale address of multiplicity m has max(0, m-k) records, a target max(m, 1) |
| ReconcileLaws.RepeatedRunsConvergeIff | src/providers/mod.rs:78-121 | k complete runs reach the target set iff no stale address had more than k records |
| ReconcileLaws.FinitelyManyRunsSuffice | src/providers/mod.rs:78-121 | as many complete runs as there are records always reach the target set |
| ReconcileLaws.AttemptsConverge | src/providers/mod.rs:78-121 | one family: over any runs towards the same targets, k complete and any number cut anywhere in between, a stale address of multiplicity m has at most max(0, m-k) records, a target loses none and has one as soon as k > 0 |
| ReconcileLaws.CrashesOnlyDelay | src/providers/mod.rs:78-121 | one family: from any records and with any crashes, as many complete runs as there were records reach exactly the targets |
| ReconcileLaws.Settled | src/providers/mod.rs:122-125 | when the targets are what is published, a run without force sends no call, changes nothing and reports nothing |
| ReconcileBounds.NoOutage | src/providers/mod.rs:94-121 | with some record and some target the family is never empty between two calls, whether or not the run succeeds |
| ReconcileBounds.TargetsStay | src/providers/mod.rs:94-121 | a published target stays published and the number of published targets never drops |
| ReconcileBounds.SizeBetween | src/providers/mod.rs:94-121 | from distinct records the record count stays between the old count and the number of targets |
| ReconcileBounds.LowerBound | src/providers/mod.rs:24-26 | no sequence of n calls can bring the published set closer to a target set by more than n missing or n stale addresses |
| ReconcileBounds.Optimal | src/providers/mod.rs:92-121 | an unforced run sends max(missing, stale) calls, and no sequence of single-record calls that reaches the target set is shorter |
| ReconcileBounds.ExactReport | src/providers/mod.rs:66-125 | the report has no duplicates; it is the unpublished targets without force and all distinct targets with it, and empty exactly when there are none |
| ReconcileBounds.ForcedPanicExample | src/providers/mod.rs:94-97 | with two published addresses, one of them the only target, a forced run exists and every one whose listing succeeds panics before it sends a call |
| ReconcileBounds.ForceChangesNothing | src/providers/mod.rs:94-103 | a forced run that gets through leaves the same counts as an unforced one, for one extra call per shared address |
| Interleaving.EachRunsAlone | src/providers/mod.rs:65-126 | in every interleaving, failing calls included, each family goes through the stages of a run of its own |
| Interleaving.AmountsToSoloRun | src/providers/mod.rs:65-126 | a finished reconcile of an interleaving is a complete run on its family's records alone |
| Interleaving.InterleavedConverges | src/main.rs:114-137 | in every finished interleaving each family's counts follow the law of one run; from distinct records it publishes exactly its own targets |
| Interleaving.FaultStaysInside | src/providers/mod.rs:65-126 | a reconcile that breaks off leaves its family as a failed solo run does; the other family obeys its own law if done and is untouched if not begun |
| Interleaving.OrderDoesNotMatter | src/main.rs:114-137 | any two finished interleavings, the sequential ones among them, leave the same count at every address |
| Interleaving.CanStep | src/providers/mod.rs:65-126 | an unfinished reconcile always has a next call that finds its record and can succeed, unless its forced path is doomed |
| Interleaving.CanBreak | src/providers/mod.rs:100-119 | every pending call may also fail, before or after it took effect |
| Interleaving.EveryStepCounts | src/providers/mod.rs:65-126 | each step after the snapshot shortens one reconcile and leaves the other where it was |
| FakeInterleaving.AlwaysUndisturbed | src/providers/fake.rs:111-185 | on the `Fake` provider, with both reconciles, strangers' creates and the worker interleaved at every atomic section and failing sends but no expiry, each family sees a solo run and no call misses its record |
| FakeInterleaving.CachesConverge | src/main.rs:114-137 | a finished reconcile leaves its family's cache by the law of one run; from distinct records the cache holds exactly its targets |
| FakeInterleaving.CanBeFinished | src/providers/fake.rs:111-185 | from every state of such a run, full channels and held locks included, an unfinished reconcile can be brought to its end while the worker lives and ids last, unless its forced path is doomed |
| RunTask.Notify | src/main.rs:131-135 | the messages of the report go out; if a `send` fails, those before it are delivered, it may be, and those after it are not; without faults it succeeds |
| RunTask.EveryNotifierOnce | src/main.rs:131-135 | these are one message with the whole report for each notifier that is there, and none for one that is not |
| RunTask.InListOrder | src/main.rs:131-135 | in the order of the task's list |
| RunTask.EveryReportTold | src/main.rs:129-136 | a pass delivers a message iff its report is a non-empty one of some family of the pass and its notifier is there |
| RunTask.RunFamily | src/main.rs:115-136 | an answer of the wrong family skips it with success and without a trace; a right one is reconciled with the ttl asked for and notified if the report is not empty; it fails if and only if the interface has no answer, the run fails or a `send` does, and panics if and only if the run does |
| RunTask.RunTask | src/main.rs:107-139 | success means all families done in order; an error means a prefix of them done and the next one cut, never because of an answer of the wrong family; without faults and with an answer for each family there is no error |
| RunTask.PassLaw | src/main.rs:114-137 | after a successful pass each legal family obeys the law of one run from the records the pass found, a skipped one is untouched |
| RunTask.PassConverges | src/main.rs:114-137 | from distinct records a pass brings every legal family to its own targets and leaves a skipped one as it was |
| RunTask.SecondPassIsSilent | src/main.rs:129-136 | after a successful pass a second one with the same answers and without force notifies nobody, duplicated records or not |
| TaskRetry.Attempt | src/main.rs:107-139 | a call of `run_task`, whatever stops it, is a link of the chains below |
| TaskRetry.TaskRunLaw | src/main.rs:114-137 | a `run_task` stopped anywhere leaves each address at its old count or, if its family was asked for with a legal answer, at the count of a complete run; a complete one at the latter |
| TaskRetry.TaskRetryConverges | src/main.rs:234-246 | from distinct records, after any task runs over any families and answers, each stopped anywhere in either family, one complete task run publishes exactly the targets of each family with a legal answer |
| TaskRetry.TaskAttemptsConverge | src/main.rs:234-246 | from any records, with k complete task runs among any stopped ones: a stale address of multiplicity m has at most max(0, m-k) records, a target loses none and has one as soon as k > 0 |
| TaskRetry.CrashedTasksOnlyDelay | src/main.rs:234-246 | as many complete task runs as there were records reach exactly the targets, whatever was stopped in between |
| TaskRetry.LostReportIff | src/main.rs:129-136 | an address of a report that was not delivered is reported by a later run, as long as the answers keep it, iff that run is forced |
| Tasks.BuiltTaskLaw | src/main.rs:169-177 | a pass of a task as configured: each family its setting names obeys the law of one run (from distinct records: ends at its targets), every other family keeps its records |
| Tasks.BuiltIff | src/main.rs:167-194 | a task can be created iff its family is one of three and `run` built its notifiers, interface and provider |
| FakeProvider.Fake.constructor | src/providers/fake.rs:59-68 | empty caches, counter at 1, empty channel and heap |
| FakeProvider.Fake.FetchAdd | src/providers/fake.rs:125 | the create takes the counter's id before any lock; the counter wraps at 2^32 |
| FakeProvider.Fake.InsertRecord | src/providers/fake.rs:126-136 | under the family's lock the record is inserted with deadline now plus ttl; the lock stays held |
| FakeProvider.Fake.SendTicket | src/providers/fake.rs:137-149 | the ticket enters the channel, or the create fails because the worker is gone; the record stays either way |
| FakeProvider.Fake.GetDnsRecord | src/providers/fake.rs:111-122 | every record of the family's cache once |
| FakeProvider.Fake.UpdateDnsRecord | src/providers/fake.rs:155-170 | the address of a cached record changes and nothing else of it; an unknown id in the cache of the new address's family is an error |
| FakeProvider.Fake.DeleteDnsRecord | src/providers/fake.rs:172-185 | the record leaves the cache of its family; an unknown id is an error |
| FakeProvider.Fake.PopTicket | src/providers/fake.rs:83-85 | the worker takes a ticket with the latest deadline from its heap |
| FakeProvider.Fake.FireTicket | src/providers/fake.rs:85-96 | after the deadline and under the lock the record of the ticket's id leaves its family's cache |
| FakeProvider.Fake.ReceiveTicket | src/providers/fake.rs:76-82 | the first ticket of the channel enters the heap, and a ticket the timer branch had popped is lost |
| FakeProvider.Fake.ExitWorker | src/providers/fake.rs:73-75 | the worker ends and every ticket it had is lost |
| FakeLaws.IdsAreFreshIff | src/providers/fake.rs:125 | the counter hands out distinct ids for n creates iff n is at most 2^32 |
| FakeLaws.AlwaysConserved | src/providers/fake.rs:62-102 | in every run each ticket is in as many places as it was sent, the channel never exceeds 10, and a cache is locked exactly while one create has a ticket to send |
| FakeLaws.AlwaysIdentified | src/providers/fake.rs:124-185 | within 2^32 creates, cached records have their key as id, their cache's family and the deadline they were created with; tickets are the records as created |
| FakeHistory.FirstInFirstOut | src/providers/fake.rs:76-82 | in every run the channel is the tickets sent so far without the first n, for n receives; the next receive puts the next of them on the heap |
| FakeHistory.TenCanWait | src/providers/fake.rs:62 | runs exist that leave n tickets waiting iff n is at most 10 |
| FakeHistory.LedgerIsHistory | src/providers/fake.rs:69-102 | a ticket counts as sent, fired or dropped exactly by the steps that do it |
| FakeHistory.EveryRecordWasCreated | src/providers/fake.rs:124-151 | every cached record stems from a create that took its id as the counter's next number and inserted it with the ttl asked for, that long before its deadline |
| FakeExpiry.OnePlacePerTicket | src/providers/fake.rs:69-102 | every ticket sent is in exactly one of channel, heap, hand, fired, dropped, and every fired one came from a create |
| FakeExpiry.FireIsSafe | src/providers/fake.rs:83-97 | a ticket that fires meets only the record of its own create, unchanged in deadline, and not before that deadline |
| FakeExpiry.OnlyDeleteOrExpiry | src/providers/fake.rs:83-97 | a record leaves its cache only by a delete of its id or by the worker at or after its stored deadline |
| FakeExpiry.DeadlineNeverMoves | src/providers/fake.rs:155-170 | no step changes the deadline or ttl of a cached record |
| FakeExpiry.NeverReturns | src/providers/fake.rs:124-185 | an id that left the caches never comes back |
| FakeExpiry.SenderFinishes | src/providers/fake.rs:76-101 | a create that holds a lock before a full channel is at most one receive away from its send, and fails at once without a worker |
| FakeExpiry.NeverWedged | src/providers/fake.rs:72-151 | from every reachable state all creates in flight can finish, each within three steps, even with the worker waiting for their locks |
| FakeExpiry.WorkerCanEnd | src/providers/fake.rs:73-75 | a shutdown ends the worker from any state and leaves the records as they are |
| FakeExpiry.NoExpiryWithoutWorker | src/providers/fake.rs:69-102 | once it has ended no record is ever removed by expiry |
| FakeTtl.MayFireIff | src/providers/fake.rs:69-102 | a created record's ticket can still fire in some continuation, at whatever time, iff the worker lives and the ticket is in line, or in its hand and not blocked behind a locked cache and a full channel |
| FakeTtl.DroppedNeverFires | src/providers/fake.rs:76-97 | a dropped ticket never fires, so only a delete removes its record |
| FakeTtl.TtlPromiseFails | src/providers/fake.rs:72-100 | a run of two creates after which a record past its deadline is cached and can never expire |
| FakeTtl.AlwaysLatestFirst | src/providers/fake.rs:32-36 | in every run the worker waits on a latest deadline, so when a ticket fires all that are left in the heap are due |
| FakeTtl.ExpiresWhenAllAreDue | src/providers/fake.rs:83-97 | in every reachable state with no create in flight, none to come and all tickets with the worker: a ticket can fire at exactly those times from now on that are past the deadlines of all of them |
| FakeTtl.OnTimeIff | src/providers/fake.rs:83-97 | there, a ticket not yet due can fire at its own deadline iff the worker has none with a later deadline |
| FakeTtl.TtlPromiseFailsInOrder | src/providers/fake.rs:32-36 | two creates with equal ttl and no ticket lost: the first record is cached past its deadline and cannot go before the second is due |
| FakeRefines.AlwaysSeparate | src/providers/fake.rs:51-56 | within 2^32 creates no id is in both caches, each cache holds its own family, and all ids come from the counter |
| FakeRefines.StepRefines | src/providers/fake.rs:111-185 | every step of every run is one create, update or delete of the abstract store, an expiry being a delete, or leaves it alone |
| FakeRefines.OtherFamilyUntouched | src/providers/fake.rs:124-185 | an operation of one family never touches the other family's cache |
| FakeRefines.ListingRefines | src/providers/fake.rs:111-122 | what `get_dns_record` returns is a listing of the family in the abstract store |
| Supervisor.TakeOut | src/main.rs:234 | the other futures, in order or with the last one moved into the gap |
| Supervisor.PutBack | src/main.rs:241-246 | a new future of the task at index i-1 goes in at index i |
| Supervisor.Supervise | src/main.rs:219-247 | the vector is the fold of the restarts up to the first time index 0 ends |
| Supervisor.AlwaysShaped | src/main.rs:229-247 | with either removal the vector keeps its length, index 0 is the shutdown future and every other place a configured task |
| Supervisor.AllAwaited | src/main.rs:235-238 | the final join waits for every task future there is |
| Supervisor.OrderedStaysAligned | src/main.rs:234-246 | if the rest keeps its order, handle k+1 belongs to task k after any run of failures |
| Supervisor.SwapAlignedIff | src/main.rs:234-246 | under swap removal a restart keeps an aligned vector aligned iff it is at one of the last two places |
| Supervisor.LosesATask | src/main.rs:234-246 | with three or more tasks two failures leave one task without a future and another with two |
| Supervisor.SwapKeepsEveryTaskIff | src/main.rs:219-247 | under swap removal every task keeps exactly one live future in every run iff there are at most two tasks |
| GracefulStop.BuildTasks | src/main.rs:219-225 | all tasks are built iff each has a known family, notifiers, interface and provider |
| GracefulStop.NeverAborts | src/main.rs:241-244 | re-creating a task that was built never fails, so the supervisor never leaves by that error |
| GracefulStop.ReplacedOnlyAfterFailure | src/main.rs:234-246 | a task future is replaced only because its `run_task` failed, never because it saw the shutdown, and the sweep then starts over |
| GracefulStop.ShutdownSeenFirst | src/main.rs:234-239 | from the moment the flag is set until `run` joins, no task future is polled, ended or replaced, and `run` takes at most four steps of its own |
| GracefulStop.SweepIsForced | src/main.rs:215-218 | there each step of `run` is forced, in every reachable state: index 0 is never found pending and no other future gets its turn |
| GracefulStop.NoRestartAfterFlag | src/main.rs:229-247 | once the shutdown flag is set no task future is created any more |
| GracefulStop.NothingIsCut | src/main.rs:198-206 | in every reachable state each `run_task` begun has succeeded, failed, was cut or is inside a future still in the vector, whatever was replaced, removed or joined; any is cut iff one panicked (src/providers/mod.rs:97) and took `run` down; the failed ones are as many as the futures replaced and those that ended the join by failing |
| GracefulProgress.EveryoneHasATurn | src/main.rs:234 | between two suspensions of `run` the future at every index is polled, in every run |
| GracefulProgress.EveryTaskCanRun | src/main.rs:198-206 | from every state of the supervision without a shutdown, the future at any task's index can be brought inside a `run_task` |
| GracefulProgress.FailedTaskRunsAgain | src/main.rs:240-246 | when a `run_task` fails, a new future of the task of its index takes its place and can begin a `run_task` |
| GracefulStop.ReturnsGracefully | src/main.rs:235-238 | when `run` returns the flag was set, as many futures as tasks were joined, each at its loop head or by its own error, and every `run_task` begun was run to its end |
| GracefulStop.EachTaskOnce | src/main.rs:234-246 | if the rest keeps its order, `run` supervises and joins exactly one future of each task |
| GracefulProgress.JoinCost | src/main.rs:235-238 | while joining, a future at its `select!` is never pending, and every event but a tick, a pending or a panicking `run_task` brings the end closer |
| GracefulProgress.JoinCanFinish | src/main.rs:235-238 | from every state of the join `run` can return, within a given number of steps |
| ShutdownLatch.Shutdown.BeginShutdown | src/shutdown.rs:23-33 | the flag is set, every subscribed receiver gets the message, and the call returns at once without receivers |
| ShutdownLatch.Shutdown.ResumeShutdown | src/shutdown.rs:29-34 | the loop ends when no receiver is counted and waits again otherwise |
| ShutdownLatch.Shutdown.BeginReceive | src/shutdown.rs:37-42 | returns at once when the flag is set, subscribes otherwise |
| ShutdownLatch.Shutdown.EndReceive | src/shutdown.rs:42-44 | a waiting `shutdown` is notified and the receiver is gone |
| ShutdownLatch.Shutdown.ReceiverCount | src/shutdown.rs:30 | the number of subscribed receivers |
| ShutdownLatch.ReceiveReturnsAfterFlag | src/shutdown.rs:37-44 | in every interleaving, cancellations included, `receive` returns only after the flag was set |
| ShutdownLatch.ReturnsWithoutReceivers | src/shutdown.rs:25-32 | `shutdown` returns only when there is no receiver, and there never is one again |
| ShutdownLatch.AlwaysOwed | src/shutdown.rs:29-43 | without cancellations a waiting, un-notified `shutdown` always has an undelivered receiver |
| ShutdownLatch.BoundedPolls | src/shutdown.rs:23-44 | after the flag is set a measure on receivers, the pending notification and the `receive`s still to be called bounds the polls to come |
| ShutdownLatch.ShutdownTerminates | src/shutdown.rs:23-44 | without cancellations a run that cannot go on has `shutdown` and every `receive` returned |
| ShutdownLatch.CanReturnIff | src/shutdown.rs:29-43 | with cancellations, a waiting `shutdown` can still return iff it is notified or a receiver is left |
| ShutdownLatch.CancellationCanHang | src/providers/fake.rs:72-75 | after index 0 of `run` has returned, the `Fake` worker's `receive` is dropped by its `select!`: `shutdown` hangs for good though every `receive` is over |
| Cloudflare.PickFamily | src/providers/cloudflare.rs:132-158 | the address records of one page that belong to the family, in order |
| Cloudflare.GetDnsRecord | src/providers/cloudflare.rs:107-166 | the ordered family filter of the whole list in floor(n/50)+1 requests, or an error exactly when one of those requests fails |
| Cloudflare.FilterKeeps | src/providers/cloudflare.rs:132-158 | a record is returned as often as the service lists it if it is of the family, never otherwise |
| Cloudflare.FilterAppend | src/providers/cloudflare.rs:132-158 | what is returned of two lists joined is what is returned of each, in their order |
| ZoneNames.ZoneNameIff | src/providers/cloudflare.rs:63-71 | the zone name is the longest suffix with at most one dot, one trailing dot not counted, and nothing else is |
| ZoneNames.ZoneOfAbsoluteName | src/providers/cloudflare.rs:63-71 | a name and its absolute form (section 5.1 of RFC 1035) have the same zone name |
| ZoneNames.ZoneNameIdempotent | src/providers/cloudflare.rs:63-71 | the zone name of a zone name is itself |
| ZoneNames.AllParts | src/providers/cloudflare.rs:64-70 | splitting at the dots, reversing and joining gives the name back, with one part more than dots |

## Left out

- HTTP, mail, signals, systemd, logging and the command line (src/main.rs:61-105, 250-479, src/notifiers): requests are calls that succeed or fail.
- GoDaddy (src/providers/godaddy.rs): its records have no id and its updates and deletes address a whole name, so a store of records by id does not describe it.
- Interfaces (src/interfaces): the addresses they answer are a parameter, a missing entry is their error; that a successful answer is not empty (src/interfaces/stock.rs:44-47) is the hypothesis of `NoOutage`.
- src/factory.rs and src/setting.rs: argument lookup and parsing.
- Reconcile.CheckAndUpdate: its loops are methods of their own, called in the order of the source; the record a hash set keeps per address is any listed one, since the listing order is arbitrary.
- Two reconciles of the same family on one provider: the snapshot is not protected, nothing is claimed; likewise an expiry during a reconcile.
- FakeProvider.Fake.ExitWorker: models the shutdown branch; the worker also ends when the provider itself is dropped, which is not modelled.
- The expiry worker's endless loop is given as the atomic steps of its three branches, not as one method, and the order in which waiting callers get a lock is left open.
- `Fake`: the order of its cache listings and the timing of `select!` are left open, so no claim is made that a record expires promptly.
- `real_main` (src/main.rs:286-420): reloading, retrying and the outer loops; the shutdown flag is never reset, and no claim is made about tasks after a reload.
- ShutdownLatch.ShutdownTerminates: does not model polls of several threads overlapping, where `receive` notifies before its receiver is gone.
- GracefulProgress.JoinCanFinish: does not claim that the join ends, since the timer branch of a task's `select!` may win any number of times and a `run_task` may stay pending.
- FakeTtl.OnTimeIff: speaks of states whose tickets have all reached the worker; while creates are in flight a later arrival can always drop or overtake a ticket.
- The supervisor's polls are those of one cooperative task; the `Fake` worker and other users of the latch run in parallel to it at every step.
