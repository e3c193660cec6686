# A verified model of the rsufz background task system

rsufz keeps background tasks in PostgreSQL, lets schedulers pick the ready ones and publish them
to a Redis stream, and lets workers execute them with retries, heartbeats and a dead letter queue.
Several actors write the same row by different routes, some through `TransitionTo` and some by raw
SQL; deliveries repeat, snapshots go stale, and any process may die between two calls.  This
project models that protocol and proves what holds in every run of it.

| file | contents |
|---|---|
| `domain.dfy` | statuses, transition table, the task object and the five row mutations |
| `backoff.dfy` | `Backoff.Delay` on wrapping int64 |
| `dag.dfy` | the three-colour search of `CheckCycle` over a mutable colour map |
| `ranking.dfy` | what `ORDER BY ... LIMIT` may return |
| `store.dfy` | the two tables, the meaning of each transaction, the repository object |
| `protocol.dfy` | the whole system as a state advanced by 22 kinds of atomic action |
| `effects.dfy` | what each action does to rows, stream and workers, in their own columns |
| `table_invariant.dfy`, `actor_invariant.dfy` | the invariant every action keeps |
| `guarantees.dfy` | safety over all runs |
| `conservation.dfy` | exact message accounting over all runs |
| `timing.dfy` | heartbeats against stuck checks |
| `liveness.dfy` | absence of deadlock, with the exact condition |
| `retry_chain.dfy`, `retry_outcome.dfy` | the life of a task whose handler always fails: what every run makes of it, and that it can be carried through |
| `usecases.dfy` | `Handle`, `tick` and `process` statement by statement, with arbitrary interference between any two calls; each contract gives the exact stretch of the run and with it the exact new state |
| `findings.dfy` | where the code promises less than its comments |
| `paging.dfy` | `List` and its int32 casts |

`Exec(INIT, acts)` ranges over every run: `acts` is any sequence of actions by any number of API
calls, schedulers and workers, and an action that is not enabled changes nothing.  The history
fields (`Ledger`, and parts of `Ticker` and `Pool`) are written by actions and read by none.

Assumptions: one clock that does not go back; generated ids are never reused and never occur in
the caller's own dependency list; each SQL statement or locked transaction is atomic, and a pick is
two steps (locking SELECT, then marking and commit) with other actors in between; an entry of the
stream that is not acknowledged may be delivered to any worker at any time, any number of times.
The last one is for the safety results.  In the existence results of `Liveness` entries are
published under growing ids and handed out in stream order, each once, from wherever the consumer
group stands, to a worker that
joins and whose XAUTOCLAIM brings nothing.  Times are integers counted in nanoseconds; the
columns keep microseconds, so a stored time can be up to a microsecond off.

What the proofs show about the code beyond its comments:

- `CleanupExpired` also deletes cancelled rows, and the cascade then drops the edges to them.  A
  dependent of a cancelled task, held back until then, becomes eligible and runs
  (`CleanedUpDependency`).  `DeclaredClosure` and `ReleasedByCleanup` give the exact conditions.
  No binary of the repository calls `CleanupExpired` yet; only its integration test does.
- `Failed -> Pending` is meant for manual restarts, but a worker with an old snapshot takes it as
  well: its retry revives a task that has failed since and takes the stored attempt count from
  limit - 1 down to 1 (`StaleWorkerRevives`, for every limit).  `RevivedIff` gives the only two ways
  a failed task comes back.  The bound on the stored count survives (`RetryBound`).
- The limit is called the maximum number of attempts, but an attempt that a stuck reset overtakes is
  not counted: for any limit the handler can run any number of times with the stored count at 0
  (`RunsUnbounded`).  What bounds it is the number of deliveries (`RunsNeedDeliveries`), and the
  limit itself in runs without resets (`AlwaysFailingChain`).
- Republish also takes back running tasks, and leaves the worker's name on the pending row
  (`RepublishedWhileRunning`).  `NamedRunIff` says exactly which runs end with such a row.
- The batch size is cast to int32 for `LIMIT`, and `BATCH_SIZE` is any integer: 2^32 picks nothing
  and 2^31 makes every tick an error (`BatchSizeWraps`).  `CompletableIff` has the exact condition.
- `Delay` is documented not to overflow.  A wrapped shift can pass both guards; `ExactIff` says
  exactly when, and the default policy never does.
- `Handle` never calls `CheckCycle`; it does not have to (`StoredGraphAcyclic`).
- `List` sorts by creation time only.  Rows created at the same instant can appear on two pages
  or on none (`TiesCanRepeat`); `PagesFitIff` says exactly at which page breaks.

## Model

| member | source | states |
|---|---|---|
| `Domain.TaskRecord.TransitionTo` | internal/domain/task.go:73-82 | succeeds exactly along the table, then sets status and update time; on refusal nothing changes |
| `Domain.TaskRecord.Apply` | internal/usecase/execute.go:164-215 | for each of the five closures, from which statuses it is accepted and the value of every field afterwards: result and worker on completion; count, error, due time and no worker on a retry; error and no worker on a failure; only status and time on a cancellation; count and error cleared and the worker kept on a republish |
| `Backoff.ExactIff` | internal/domain/backoff.go:22-37 | for every positive base, maximum and attempt: the delay is min(base * 2^max(n,0), max) over unbounded integers if and only if the wrapped shift is not misread as a delay |
| `Backoff.DivisibleBaseIsExact` | internal/domain/backoff.go:22-37 | if 2^t divides the base and base * max < 2^(63+t), the delay is exact for every attempt |
| `Backoff.DefaultIsExact` | internal/domain/backoff.go:13-18 | the default policy is exact for every attempt |
| `Backoff.OverflowWitness` | internal/domain/backoff.go:26-35 | 5ns with maximum 2^63-1 at attempt 62 gives 2^62 instead of the maximum |
| `Backoff.DelaySumClosedForm` | internal/domain/backoff.go:13-37 | the default delays of a task with limit L sum to 2^L-2 s up to L = 9, and to 510+300(L-9) s from there |
| `Dag.Search.Visit` | internal/domain/dag.go:22-37 | one call of the recursive closure: whatever the outcome, no id was expanded twice and only reachable ones were; an error names a reachable id on a cycle; otherwise the id and all it depends on are black and the stack is as before; terminates |
| `Dag.CheckCycle` | internal/domain/dag.go:13-39 | on any finite graph, its edges read off the caller's lists, an error if and only if a cycle is reachable from the start, and the reported id is reachable and lies on a cycle |
| `Dag.Search.GetDeps` | internal/domain/dag.go:8-9 | the caller's list of the id, empty for an unknown id |
| `Dag.RunSearch` | internal/domain/dag.go:13-39 | on every graph, cyclic or not, no id is expanded twice and only reachable ones are; on success the black ids are exactly the reachable ones, each expanded |
| `Ranking.TopIffPrefix` | internal/adapter/repo/postgres/repo.go:429-431 | the pointwise definition of a query result (distinct, sorted, nothing better left behind) holds exactly of the prefixes of rankings cut at the limit |
| `Ranking.RankingExists` | internal/adapter/repo/postgres/repo.go:429-431 | every finite table can be ordered, so the query always has a result |
| `Ranking.RankingUnique` | internal/adapter/repo/postgres/repo.go:364-368 | without equal keys there is only one order |
| `Ranking.CutIff` | internal/adapter/repo/postgres/repo.go:364-368 | the first k rows of one query and the rest of another are again a complete sorted list, whatever orders the two chose, if and only if the rows at the cut have different keys |
| `Store.Repo.Create` | internal/adapter/repo/postgres/repo.go:123-186 | succeeds if and only if id and key are new, the priority is legal, and the listed dependencies exist and are distinct; then exactly the new row and its edges are added, otherwise nothing changes |
| `Store.Repo.UpdateTask` | internal/adapter/repo/postgres/repo.go:229-283 | the error cases by presence and status of the row, and for each of the five closures the value of every column of the row afterwards, all other rows unchanged; on an error nothing changes |
| `Store.Repo.MarkRunning` | internal/adapter/repo/postgres/repo.go:460-476 | afterwards exactly the selected rows are running with the given time, all else is unchanged, and the returned slice equals the stored rows in order |
| `Store.Repo.Heartbeat` | internal/adapter/repo/postgres/repo.go:481-497 | time and worker of the row if it is running, not found otherwise, nothing else |
| `Store.Repo.ResetStuckRunning` | internal/adapter/repo/postgres/repo.go:501-512 | exactly the running rows not updated within the timeout become pending without a worker, and their number is returned |
| `Store.Repo.CleanupExpired` | internal/adapter/repo/postgres/repo.go:515-526 | exactly the completed and cancelled rows older than the ttl disappear, with exactly the edges that mention one of them, and their number is returned |
| `Store.Repo.FindByIdempotencyKey` | internal/adapter/repo/postgres/repo.go:217-225 | a row that carries the key, or none if there is none |
| `Effects.SelectedIff` | internal/adapter/repo/postgres/repo.go:417-432 | a scheduler at rest can select a batch if and only if it consists of distinct rows that are pending, due, unlocked and without uncompleted dependency, each of higher priority than the later ones or of the same and not later due, the same against every such row left behind, as many as int32(limit) and the table allow |
| `Effects.PickMarks` | internal/adapter/repo/postgres/repo.go:460-476 | a pick's commit changes status and time of the selected rows, and nothing else |
| `Effects.InsertEffect` | internal/adapter/repo/postgres/repo.go:123-186 | an enqueue call inserts its task if and only if the schema allows it, with exactly the listed edges, which are recorded as declared |
| `Effects.LookupEffect` | internal/usecase/enqueue.go:82-93 | an accepted command is answered with the row that carries its key, or goes on if there is none; any other changes nothing |
| `Effects.BuildEffect` | internal/usecase/enqueue.go:96-114 | the built task has the caller's fields, the caller's time or else the clock, and pending status with everything else empty |
| `Effects.HeartbeatEffect` | internal/usecase/execute.go:125-129 | a heartbeat stamps time and the worker's name on the row if it is running |
| `Effects.CommitEffect` | internal/usecase/execute.go:164-215 | a worker's commit writes exactly the columns of its change to an unlocked row whose status allows it, and nothing otherwise |
| `Effects.CancelEffect` | internal/usecase/tasks.go:24-37 | Cancel turns an unlocked pending row cancelled, and changes nothing otherwise |
| `Effects.RepublishEffect` | internal/usecase/tasks.go:44-59 | Republish turns an unlocked running or failed row pending with count 0 and no error, and changes nothing otherwise |
| `Effects.ResetEffect` | internal/usecase/heartbeat.go:48-57 | a stuck check takes back exactly the running rows older than the timeout |
| `Effects.CleanupRows` | internal/adapter/repo/postgres/repo.go:515-526 | a cleanup deletes exactly the finished rows older than the ttl |
| `Effects.NoOtherEffect` | internal/usecase/execute.go:76-157 | no other action changes the tables |
| `Effects.PublishStepEffect` | internal/usecase/schedule.go:77-92 | a publish takes the first row off the queue and, if it succeeds, puts that row's id into the stream |
| `Effects.ReadEffect` | internal/usecase/execute.go:83-101 | the worker takes the first message; an unknown task is dropped, a completed or cancelled one only acknowledged, any other executed on its present row |
| `Effects.FinishEffect` | internal/usecase/execute.go:103-157 | what each outcome makes the worker ask for, with result, error, attempt and due time |
| `Effects.CommitPoolEffect` | internal/usecase/execute.go:164-227 | an applied failure goes on to the report, any other applied change to the ack, a refused one to neither |
| `TableInvariant.TablesPreserved` | internal/adapter/repo/postgres/repo.go:123-526 | every transaction keeps: edges point to older rows, keys unique, picked rows have completed dependencies, attempts bounded, at most one completion, declared dependencies accounted for |
| `TableInvariant.IdentityKept` | internal/adapter/repo/postgres/repo.go:257-277 | no transaction changes type, payload, priority, creation time, retry limit or key of a row |
| `ActorInvariant.OpIsSound` | internal/usecase/execute.go:140-215 | every transaction any actor starts, on however stale a snapshot, meets what the tables need |
| `ActorInvariant.NextInv` | internal/usecase/execute.go:76-227 | every action of every actor keeps the invariant of the whole system |
| `ActorInvariant.ExecInv` | internal/usecase/execute.go:76-227 | hence every run does |
| `Guarantees.StatusRefinement` | internal/domain/task.go:42-48 | every step of every run, the raw SQL of pick and reset included, moves a row only along the transition table; rows begin pending |
| `Guarantees.TerminalForever` | internal/domain/task.go:46-47 | no field of a completed or cancelled row changes in any continuation until it is deleted, and a deleted id never returns |
| `Guarantees.LedgerCountsMoves` | internal/adapter/repo/postgres/repo.go:466-474 | the counters used below equal the number of status moves seen in the tables |
| `Guarantees.AtMostOneCompletion` | internal/usecase/execute.go:96-179 | at most one running -> completed step per task in any run; a row is completed exactly if there was one; its result and worker come from a handler run on its own payload |
| `Guarantees.IdentityForever` | internal/adapter/repo/postgres/repo.go:257-277 | retry limit, payload, key and the other identity fields of a row never change in a run |
| `Guarantees.RetryBound` | internal/usecase/execute.go:140-151 | in every reachable state the stored count is 0 or strictly between 0 and the limit, never truncated, and every snapshot is bounded likewise and agrees with its row on limit and payload |
| `Guarantees.RowFields` | internal/usecase/execute.go:164-215 | a result only on completed rows, no worker on failed rows, none on pending rows in runs in which no Republish is asked for a running task |
| `Guarantees.DependencySafety` | internal/adapter/repo/postgres/repo.go:417-474 | whenever a task is running, completed, failed, retried, queued for publishing, in the stream or with a worker, everything in its transitive stored dependency closure is completed |
| `Guarantees.DeclaredDependencies` | migrations/001_init.sql:30-34 | a picked task has all its declared dependencies completed if and only if none of them was deleted while cancelled |
| `Guarantees.DeclaredClosure` | migrations/001_init.sql:30-34 | the same over everything it was declared to depend on, directly or through others, deleted rows included |
| `Guarantees.StoredGraphAcyclic` | internal/usecase/enqueue.go:102-121 | no reachable state stores a dependency cycle |
| `Guarantees.CheckStoredGraph` | internal/domain/dag.go:13-39 | the cycle check from any id over the stored edges of any reachable state reports nothing |
| `Guarantees.IdempotentEnqueue` | internal/usecase/enqueue.go:82-121 | at most one row per non-empty key; all calls answered under a key return the same id as long as the rows exist, and a missing one was completed or cancelled and then cleaned up |
| `Guarantees.PicksAreDisjointPrefixes` | internal/adapter/repo/postgres/repo.go:417-432 | open picks hold disjoint batches, and a batch can be selected if and only if int32(limit) is not negative and the batch is the first int32(limit) of some ordering of the eligible unlocked rows (the ordering itself is pinned by `Effects.SelectedIff`) |
| `Guarantees.RunningComesFromOnePick` | internal/adapter/repo/postgres/repo.go:410-477 | every pending -> running step is the commit of the one pick that holds the row, which is due and has its dependencies completed |
| `Guarantees.AckHasGrounds` | internal/usecase/execute.go:97-101 | an acknowledged message had its task changed on its behalf, or its task was read as finished and still is |
| `Guarantees.BackoffHonoured` | internal/usecase/execute.go:140-194 | a worker whose handler failed reads the clock at T, others do anything, its retry with attempt n is committed: no step of any continuation makes the task running before T + min(2^n s, 300 s) |
| `Guarantees.DueTimeHonoured` | internal/adapter/repo/postgres/repo.go:417-431 | after a committed retry with any due time no step of any continuation makes the task running before it |
| `Guarantees.RetryDelay` | internal/usecase/execute.go:181-194 | that due time is the clock reading plus min(2^attempt s, 300 s), with the attempt below the limit |
| `Conservation.StreamConservation` | internal/usecase/schedule.go:72-94 | per task and run: pending -> running steps = stream entries + recorded losses + publishes still queued; in a run without failed publishes and scheduler crashes, and with all ticks done, they are equal |
| `Conservation.DlqConservation` | internal/usecase/execute.go:207-227 | per task and run: running -> failed steps = DLQ entries + recorded losses + reports still owed; in a run without failed reports and deaths of reporting workers, and with none owed, they are equal |
| `Conservation.RunsNeedDeliveries` | internal/adapter/broker/redis/broker.go:57-121 | no run executes the handler of a task more often than it delivers a message of it |
| `Timing.NeverResetWhileExecuting` | internal/usecase/execute.go:120-137 | while a worker keeps its 5 s heartbeats and the row was fresh enough at the start, no stuck check changes the row |
| `Timing.PickedTaskSurvives` | internal/usecase/heartbeat.go:34-57 | the same from a pick: starting within timeout - 5 s of the last update suffices |
| `Timing.StuckTaskIsReset` | internal/app/scheduler.go:61 | with checks every timeout/2, a running row is not left untouched longer than 1.5 timeouts |
| `Liveness.NoDeadlock` | internal/usecase/schedule.go:72-94 | from every reachable state, every timeout, every position of the consumer group and every batch size that is at least 1 after its int32 cast, a task with no failed or cancelled task in its closure has a finite healthy continuation that completes it, entries being handed out in stream order and none twice |
| `Liveness.EveryoneCompletes` | internal/usecase/schedule.go:72-94 | one such continuation completes all tasks that have a chance |
| `Liveness.CompletableIff` | internal/adapter/repo/postgres/repo.go:410-512 | a task not completed yet has such a continuation if and only if int32(batch size) is at least 1 and its closure is free of failed and cancelled tasks, or int32(batch size) is below 1 and the task is already running or picked with an entry still to be handed out |
| `RetryChain.AlwaysFailingChain` | internal/usecase/execute.go:140-227 | in any run that does not reset, cancel or republish the task and neither loses nor redelivers its messages (other tasks and their workers may crash at will), a task whose handler always fails is run at most max(1, L) times; exactly one delivery is under way while it is running and none otherwise; it is failed if and only if it was run that often and the last outcome is committed, then with stored count max(1, L)-1, one failure, and not before its schedule plus all backoffs |
| `RetryChain.ChainStep` | internal/usecase/execute.go:140-227 | the invariant behind it: one delivery, agreeing snapshots, balanced counts, kept by every step |
| `RetryOutcome.ChainEndsFailed` | internal/usecase/execute.go:140-227 | from every reachable state, a task never picked before and with no failed or cancelled task in its closure has such a run: its dependencies complete, its handler is run exactly max(1, L) times, and it ends failed with one failure and one DLQ entry |
| `UseCases.Handle` | internal/usecase/enqueue.go:63-139 | with arbitrary interference: the exact stretch of the run; success if and only if the type is not blank and known, the payload JSON, the priority at most 10, the lookup works, and it finds a row, or id and key are new and all dependencies present and distinct at the INSERT; a hit answers with that row; a new row has the caller's columns, the caller's time or else the clock at the build, creation and update time of that clock, no error, worker or result, and exactly the listed dependencies, all other rows and edges unchanged |
| `UseCases.Tick` | internal/usecase/schedule.go:72-94 | with arbitrary interference and a SELECT that answers with the right batch in raw columns: the exact stretch of the run, select, commit and one publish per row; an error exactly when int32(limit) is negative or the pick breaks, then nothing is marked or published; every id sent is in the stream under a new message id, and the ids sent are the successful ones, a subsequence of the batch order |
| `UseCases.PickAndMark` | internal/adapter/repo/postgres/repo.go:410-477 | on success all selected rows are running, whatever happened since the SELECT; on an error the tables are as the others left them and no lock remains |
| `UseCases.Choose` | internal/usecase/execute.go:140-156 | incrementing the task object and asking it whether it can retry chooses the same change as `Decide` |
| `UseCases.Dispatch` | internal/usecase/schedule.go:77-92 | one publish call per row in order, going on after errors; each successful one put its row's id into the stream under a new message id; nothing stays queued |
| `UseCases.CommitRows` | internal/adapter/repo/postgres/repo.go:460-476 | whatever happened since the SELECT, the locked rows are all running after the commit |
| `UseCases.Process` | internal/usecase/execute.go:76-157 | with arbitrary interference: the exact stretch of the run on each of the seven ends, commit before report before ack; a missing row, a finished row, or an execution on the row as read; UpdateTask is asked for the change the outcome calls for, and the end follows from lock and status it meets in that very state; an applied change writes exactly its columns, a failure or retry the handler's own error, a completion its result; a settled call leaves its message acknowledged on the ground of its own commit, a reported failure is in the DLQ |
| `UseCases.AwaitOutcome` | internal/usecase/execute.go:123-137 | the outcome is the first event that is no heartbeat, and the run went on by exactly one heartbeat per tick before it, each after what the others did |
| `UseCases.TryCommit` | internal/usecase/execute.go:164-205 | UpdateTask is given up exactly if it breaks or the row is locked, applied exactly if the row exists unlocked and the transition is allowed, refused otherwise; only the second leads on to an acknowledgement, the others change no row |
| `UseCases.Settle` | internal/usecase/execute.go:220-222 | after a committed failure the DLQ publish comes before the ack, its error does not stop the ack, and a successful one is in the DLQ; the message is acknowledged |
| `UseCases.Xadd` | internal/adapter/broker/redis/broker.go:26-35 | a successful publish adds one entry under a new message id, a failed one nothing |
| `Findings.CleanedUpDependency` | internal/adapter/repo/postgres/repo.go:515-526 | a concrete run in which a task runs although a declared dependency never completed |
| `Findings.ReleasedByCleanup` | internal/adapter/repo/postgres/repo.go:515-526 | after a cleanup a task is eligible if and only if it is unlocked, pending, due, and each dependency was completed or was expired by that cleanup |
| `Findings.StaleWorkerRevives` | internal/usecase/execute.go:181-194 | for every limit L of at least 2 and every stuck timeout, a run from the empty system in which a worker with an old snapshot turns a failed task with count L-1 into a pending one with count 1 |
| `Findings.RevivedIff` | internal/domain/task.go:42-48 | for every reachable state and action: a failed task becomes pending if and only if its row is unlocked and the action is a Republish of it or the commit of a retry of it |
| `Findings.StaleRetry` | internal/usecase/execute.go:181-194 | a retry commits if and only if the row exists, unlocked, and is running or failed, and then overwrites the count |
| `Findings.RunsUnbounded` | internal/domain/task.go:62-65 | for every limit, stuck timeout and n, a run from the empty system in which the handler of one task was run n times and its stored count is 0 |
| `Findings.RepublishedWhileRunning` | internal/usecase/tasks.go:44-59 | a run from the empty system that ends with a pending row naming the worker that is still executing it |
| `Findings.NamedPendingIff` | internal/usecase/tasks.go:39-59 | for every reachable state and action: a stored row becomes a pending one that names a worker if and only if the action is a Republish of it while it is unlocked, running and names one |
| `Findings.NamedRunIff` | internal/usecase/tasks.go:39-59 | over whole runs: a row is pending and names a worker if and only if such a Republish hit it and it has been pending ever since |
| `Findings.RepublishRunning` | internal/usecase/tasks.go:44-59 | on an unlocked row Republish succeeds if and only if it is failed or running, resets the count and keeps the worker's name |
| `Findings.BatchSizeWraps` | internal/adapter/repo/postgres/repo.go:430-432 | one enqueued task that no healthy continuation completes with batch size 2^32 or 2^31, and one does with batch size 1 |
| `Paging.List` | internal/adapter/repo/postgres/repo.go:345-406 | fails if and only if the low 32 bits of size or offset are negative; otherwise rows of the requested status and type with their columns, newest first and none twice; the rows from (page-1)*size on, at most size of them, defaults 1 and 50; on page 1 none newer is left out; the total is the number of matching rows in the table of the count |
| `Paging.OrderIsRanking` | internal/adapter/repo/postgres/repo.go:364-368 | the orders the database may choose are exactly those that list every matching row once by non-increasing creation time |
| `Paging.PagesPartition` | internal/adapter/repo/postgres/repo.go:345-369 | pages 1 to ceil(total/size) put together are the sorted list without gap or repeat if and only if size and last offset survive the int32 casts (or the first page already holds everything) |
| `Paging.OrderFixedIff` | internal/adapter/repo/postgres/repo.go:364-368 | all queries over one table sort its matching rows alike if and only if their creation times are distinct |
| `Paging.PagesFitIff` | internal/adapter/repo/postgres/repo.go:364-368 | pages 1 to p of one query and the rest of another make a complete sorted list, whatever orders they chose, if and only if the rows on both sides of the page break differ in creation time |
| `Paging.TiesCanRepeat` | internal/adapter/repo/postgres/repo.go:364-368 | in any table with two matching rows of equal creation time there are two correct orders, one row apart, whose consecutive pages repeat a row and miss its neighbour |

## Left out

- gRPC server, mapping, interceptors and error codes: wire plumbing; the model starts at `EnqueueCmd`.
- PostgreSQL and Redis internals: only the meaning of each statement is modelled.  A failing call is an action without its effect (a failed publish, an abandoned commit or ack, a call that hangs up, a crash).
- Lock waits: an UpdateTask on a row held by an open pick waits or is given up; an INSERT that must wait for a foreign key's row lock is allowed to go ahead, which only adds runs.
- XAUTOCLAIM's idle time, counts and blocking times: an unacknowledged entry may be redelivered at any time, which only adds runs to those the safety results cover; trimming of the stream does not occur in the code.
- `reclaimPending` and `readLoop` as loops: each message they push is one delivery action, in any order for the safety results and in stream order in `Liveness`; the calm runs of `RetryOutcome` pick the message they deliver.
- Messages that do not parse: no publisher in the code writes one.
- JSON validity, `TrimSpace`, quoting of error texts, UUID parsing and generation: library code, taken as flags of the command and as a source of fresh ids.
- The UUID cast of a malformed dependency id: fails like a missing dependency.
- Logging, tracing, metrics, configuration, signals, migrations tooling: no hard property.
- `Registry`, `LockNextPending`, `StreamTaskUpdates`, `GetUseCase`: a map, the pick query without its update, a polling loop and a pass-through, which would only add easy members.
- Outbox table and the worker service of the protocol definition: declared but not used by the code.
- `Loop` and `Run`: their tickers are any sequence of ticks and checks; the timing lemmas state the spacing they need.
- UseCases.Process: a GetByID, Heartbeat or XACK call that fails on the network is an action of the protocol (`Abandon`, or no heartbeat) and not a path of this method.
- Paging.PagesFitIff: page sizes and page breaks from 2^31 on, where the casts make the pages themselves fail (`PagesPartition`).
