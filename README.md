# SQL-over-REST gateway: resource arbitration and slow-query bookkeeping

This project models the core of a multi-tenant SQL-over-REST gateway. A REST client sends a tenant token and an SQL
statement. The gateway checks the statement, picks one of the tenant's database adapters and runs the statement on
it. The model covers the layer between the REST handlers and JDBC:

- **Tenant pools** (`pool.dfy`): a handle per tenant token keeps a pool of adapters. The pool size is checked against
  the configured limit. Resizing closes the oldest adapters from the front or opens new ones from the supplier. The
  list is rebuilt as a new value, so a list handed out earlier never changes.
- **Round robin** (`roundrobin.dfy`, `arbiter.dfy`, `access.dfy`, and the bottom stage in `interceptors.dfy`): a
  per-token 32-bit counter is read and incremented. The value read selects `counter mod size`. A negative counter
  (after wrap-around) is an error. The compare-and-set that follows never fires in sequential execution.
- **Admission permits** (`permits.dfy` plus the limited-access classes): each token gets a semaphore with the
  configured number of permits, created on its first acquire. Acquire takes a permit. Release gives one back, or fails
  for a token that never acquired.
- **The interceptor chain and close hooks** (`interceptors.dfy`): each stage wraps the previous one and may register a
  close hook on the returned `ClosableQuery`: a permit release, a latency record, or a watchdog timer. Closing runs
  the hooks in registration order and stops at the first that throws.
- **The slow-query watchdog** (`watchdog_logic.dfy`, and the watchdog classes in `interceptors.dfy`): threshold
  selection (static or dynamic, with a cache refreshed every 100 samples), the timers' timeout arithmetic, the watch
  loop's logging decisions, and requeueing of overdue timers when their query finishes.
- **The idle-timeout connection holder** (`supplier.dfy`): it closes and reopens its JDBC connection after five idle
  minutes, computing in wrapping `long` arithmetic.
- **The custom adapter's SQL text** (`custom_service_adapter.dfy`): the SELECT and UPDATE statements with their `(?)`
  placeholders and value lists, positional binding, multi-row insert chunks, and the CREATE TABLE statement.
- **The REST query controller** (`controller.dfy`): a statement containing `;` is refused before any connection is
  requested. Otherwise the chain's connection is closed after the adapter call with try-with-resources semantics.

Time, the answers of the database, the supplier and the query logger, and the latency digest's quantile estimate are
parameters. A Java map that is iterated is given as the sequence of its entries in iteration order. Java's `null` is
`None`. Exceptions are `Result`/`Outcome` values whose `Error` names the Java exception class.

## Model

Paths are relative to the repository root.

| member | source | states |
|---|---|---|
| Common.AdapterSupplier.Get | src/main/java/ai/libs/sqlrest/TokenConnectionHandle.java:72 | the supplier returns a fresh, open adapter for exactly the host and credentials asked for, and counts the adapters it opened |
| Common.Adapter.Close | src/main/java/ai/libs/sqlrest/TokenConnectionHandle.java:69 | a dropped adapter is closed |
| Pool.LoadError | src/main/java/ai/libs/sqlrest/TokenConnectionHandle.java:35-40 | loading succeeds iff the administrative query succeeded and returned exactly one row |
| Pool.SizeError | src/main/java/ai/libs/sqlrest/TokenConnectionHandle.java:50-56 | the configured pool size is accepted iff `1 <= size <= limit` |
| Pool.CreationError | src/main/java/ai/libs/sqlrest/SQLAdapterManager.java:30-39 | creating a handle succeeds iff both the load and the size check pass; a SQLException from the load comes back wrapped in a RuntimeException |
| Pool.TokenConnectionHandle.constructor | src/main/java/ai/libs/sqlrest/TokenConnectionHandle.java:25-29 | a new handle has an empty adapter list and a recorded count of 0 |
| Pool.TokenConnectionHandle.LoadDatabaseInfo | src/main/java/ai/libs/sqlrest/TokenConnectionHandle.java:31-46 | zero rows or several rows fail with IllegalStateException and a failed query with its SQLException; in each failure case the credentials stay unchanged; otherwise user, password and database name come from the single row; the count and the list are untouched |
| Pool.TokenConnectionHandle.RequireNumConnectionsMatchesConfig | src/main/java/ai/libs/sqlrest/TokenConnectionHandle.java:48-61 | an out-of-range size fails before the count, the list or any adapter changes; an unchanged size changes nothing; a different size is recorded and the pool is resized to it (dropped adapters closed, new ones fresh) |
| Pool.TokenConnectionHandle.ReadjustNumConnections | src/main/java/ai/libs/sqlrest/TokenConnectionHandle.java:63-76 | the new list has length n; shrinking keeps the last n adapters in order and closes exactly the dropped ones; growing keeps the old list as a prefix and appends fresh, open adapters with the handle's credentials; the supplier is asked exactly `n - old length` times when growing |
| Pool.TokenConnectionHandle.GetCurrentAdapters | src/main/java/ai/libs/sqlrest/TokenConnectionHandle.java:78-82 | returns the handle's current list; being a value, a list returned earlier is never changed by a later resize |
| Pool.SQLAdapterManager.constructor | src/main/java/ai/libs/sqlrest/SQLAdapterManager.java:20-22 | a new manager has no handles |
| Pool.SQLAdapterManager.GetAdaptersFor | src/main/java/ai/libs/sqlrest/SQLAdapterManager.java:24-28 | a known token gets its stored list with the map and the supplier untouched (no resize after creation); an unknown token gets a handle iff creation succeeds, stored as the only new map entry with a pool of the configured size; a failed creation stores nothing and returns the creation error; every handle stored before the call is left unchanged |
| Pool.SQLAdapterManager.CreateTokenConnectionHandle | src/main/java/ai/libs/sqlrest/SQLAdapterManager.java:30-39 | a new handle loads the tenant row first, then sizes its pool to the configuration with adapters opened for the row's credentials; a failure opens no adapter |
| RoundRobin.SelectIndex | src/main/java/ai/libs/sqlrest/arbiter/CyclicAdapterArbiter.java:34-36 | the selected slot lies in `[0, size)` and is the counter itself when already in range; an empty pool is an ArithmeticException |
| RoundRobin.Normalise | src/main/java/ai/libs/sqlrest/arbiter/CyclicAdapterArbiter.java:34-36 | the repeated-remainder loop ends with exactly `counter mod size` |
| RoundRobin.Pick | src/main/java/ai/libs/sqlrest/arbiter/CyclicAdapterArbiter.java:29-38 | the pool's own error first, then IllegalStateException for a negative counter, then the empty-pool error; otherwise an adapter of the pool, and `pool[c]` for an in-range counter |
| RoundRobin.CounterNoWrap | src/main/java/ai/libs/sqlrest/arbiter/CyclicAdapterArbiter.java:27 | until it reaches INT_MAX the counter counts the acquires |
| RoundRobin.RoundRobinCycle | src/main/java/ai/libs/sqlrest/arbiter/CyclicAdapterArbiter.java:27-38 | the i-th of successive acquires on a fixed pool gets `pool[(c + i) mod size]` |
| RoundRobin.EveryAdapterOncePerCycle | src/main/java/ai/libs/sqlrest/arbiter/CyclicAdapterArbiter.java:27-38 | any `size` consecutive acquires (without wrap-around) hand out every adapter of the pool |
| RoundRobin.WrapAroundFails | src/main/java/ai/libs/sqlrest/arbiter/CyclicAdapterArbiter.java:27-33 | after 2^31 acquires the counter has wrapped to INT_MIN and the next acquire fails with the negative-index error |
| Permits.PermitAccounting | src/main/java/ai/libs/sqlrest/arbiter/LimitedAccessAdapterArbiter.java:27-41 | when every release matches an earlier acquire, the semaphore holds the limit minus the permits currently taken, and it exists once a permit was taken |
| Permits.InFlightNeverExceedsLimit | src/main/java/ai/libs/sqlrest/arbiter/LimitedAccessAdapterArbiter.java:27-41 | with completed acquires and matched releases, no more than the limit are held at once |
| Permits.NonPositiveLimitAdmitsNothing | src/main/java/ai/libs/sqlrest/arbiter/LimitedAccessAdapterArbiter.java:28-30 | a limit of zero or less lets no acquire complete |
| Permits.NoTakeNoSemaphore | src/main/java/ai/libs/sqlrest/arbiter/LimitedAccessAdapterArbiter.java:28-29 | the semaphore is created only by an acquire: releases alone never create it |
| Permits.UnmatchedGiveRaisesCeiling | src/main/java/ai/libs/sqlrest/arbiter/LimitedAccessAdapterArbiter.java:35-41 | release does not check for a matching acquire: with limit 1, an acquire and two releases leave two permits |
| Arbiter.CyclicAdapterArbiter.constructor | src/main/java/ai/libs/sqlrest/arbiter/CyclicAdapterArbiter.java:19-21 | no token has a counter yet |
| Arbiter.CyclicAdapterArbiter.Acquire | src/main/java/ai/libs/sqlrest/arbiter/CyclicAdapterArbiter.java:24-39 | the token's counter (0 when new) is advanced exactly once with int wrap-around, other tokens' counters are unchanged, and the result is `Pick` of the value read and the token's pool; a known token's handle map is untouched |
| Arbiter.LimitedAccessAdapterArbiter.constructor | src/main/java/ai/libs/sqlrest/arbiter/LimitedAccessAdapterArbiter.java:21-24 | no token has a semaphore yet |
| Arbiter.LimitedAccessAdapterArbiter.Acquire | src/main/java/ai/libs/sqlrest/arbiter/LimitedAccessAdapterArbiter.java:27-32 | one permit of the token (limit when new) is taken and stays taken even when the delegate fails; the result is the delegate's round-robin pick |
| Arbiter.CyclicAdapterArbiter.Release | src/main/java/ai/libs/sqlrest/arbiter/CyclicAdapterArbiter.java:41-44 | releasing changes neither the arbiter's counters nor the adapter |
| Arbiter.LimitedAccessAdapterArbiter.Release | src/main/java/ai/libs/sqlrest/arbiter/LimitedAccessAdapterArbiter.java:35-41 | an unknown token fails with IllegalStateException and nothing changes; otherwise exactly that token's count grows by one |
| Access.ISQLAdapterCyclicAccess.constructor | src/main/java/ai/libs/sqlrest/ISQLAdapterCyclicAccess.java:17-19 | no token has a counter yet |
| Access.ISQLAdapterCyclicAccess.Acquire | src/main/java/ai/libs/sqlrest/ISQLAdapterCyclicAccess.java:22-37 | as the cyclic arbiter: one wrapping advance of the token's counter, result `Pick` of the value read and the pool |
| Access.ISQLAdapterLimitedAccess.constructor | src/main/java/ai/libs/sqlrest/ISQLAdapterLimitedAccess.java:19-22 | no token has a semaphore yet |
| Access.ISQLAdapterLimitedAccess.Acquire | src/main/java/ai/libs/sqlrest/ISQLAdapterLimitedAccess.java:25-30 | one permit taken before delegating, kept when the delegate fails; the result is the delegate's pick |
| Access.ISQLAdapterCyclicAccess.Release | src/main/java/ai/libs/sqlrest/ISQLAdapterCyclicAccess.java:39-42 | releasing changes neither the access's counters nor the adapter |
| Access.ISQLAdapterLimitedAccess.Release | src/main/java/ai/libs/sqlrest/ISQLAdapterLimitedAccess.java:33-39 | unknown token: IllegalStateException, no change; otherwise one permit back for that token only, without delegating |
| Interceptors.QueryRuntimeModel.constructor | src/main/java/ai/libs/sqlrest/QueryRuntimeModel.java:23-24 | no samples |
| Interceptors.QueryRuntimeModel.RecordQueryTime | src/main/java/ai/libs/sqlrest/QueryRuntimeModel.java:26-29 | the latency is appended to the samples |
| Interceptors.QueryRuntimeModel.Reset | src/main/java/ai/libs/sqlrest/QueryRuntimeModel.java:35-38 | the samples are cleared |
| Interceptors.ClosableQuery.constructor | src/main/java/ai/libs/sqlrest/ClosableQuery.java:18-21 | the access holds exactly the given adapter and query, and no hooks |
| Interceptors.ClosableQuery.AddCloseHook | src/main/java/ai/libs/sqlrest/ClosableQuery.java:31-33 | the hook is appended after the earlier ones |
| Interceptors.ClosableQuery.Close | src/main/java/ai/libs/sqlrest/ClosableQuery.java:36-40 | the hooks run in registration order: the state of every hook target is the old one with the first `done` hooks applied; all ran iff the close passes; a failure is the release of a limiter that does not know the token; the hook list is kept, so a second close runs the hooks again |
| Interceptors.ClosableQuery.RunHook | src/main/java/ai/libs/sqlrest/ClosableQuery.java:37-39 | one hook's action: it fails iff it is a permit release for a token its limiter does not know, and then changes nothing; otherwise the targets' state is advanced by exactly that hook |
| Interceptors.ClosableQuery.ReleasePermit | src/main/java/ai/libs/sqlrest/interceptors/LimitedAccessConnectionInterceptor.java:38-44 | the release hook: IllegalStateException for an unknown token, otherwise one permit back |
| Interceptors.ClosableQuery.RecordLatency | src/main/java/ai/libs/sqlrest/interceptors/QueryTimeRecorder.java:25-26 | the latency hook appends `now - timeWhenQueried` to the runtime model |
| Interceptors.ClosableQuery.FinishTimer | src/main/java/ai/libs/sqlrest/interceptors/WatchdogInterceptor.java:224-230 | the timer hook finishes the timer at `now` and requeues it at its watchdog exactly when the strict test as written finds it overdue, `threshold < now - timeStarted` |
| Interceptors.PermitsReturned | src/main/java/ai/libs/sqlrest/interceptors/LimitedAccessConnectionInterceptor.java:38-44 | running hooks gives a limiter that knows the token one permit per release hook, and changes no other token's count |
| Interceptors.LatenciesRecorded | src/main/java/ai/libs/sqlrest/interceptors/QueryTimeRecorder.java:25-26 | running hooks appends to a runtime model exactly its hooks' latencies, in hook order |
| Interceptors.TimersRequeued | src/main/java/ai/libs/sqlrest/interceptors/WatchdogInterceptor.java:216-222 | running hooks appends to a watchdog's queue exactly its timers that the strict test as written finds overdue at `now`, in hook order, and leaves its flag and cache alone |
| Interceptors.TimersFinished | src/main/java/ai/libs/sqlrest/interceptors/WatchdogInterceptor.java:216-218 | a timer whose hook ran is finished at `now`, however often it ran; other timers are untouched |
| Interceptors.Request | src/main/java/ai/libs/sqlrest/IQueryInterceptor.java:9 | a request through any chain yields exactly the bottom arbiter's pick for the counter value read, and advances that token's counter once with int wrap-around while leaving every other token's counter alone; a success is a fresh access with the query, carrying the chain's hooks in stage order (innermost first), all registered at the request's clock reading |
| Interceptors.Attach | src/main/java/ai/libs/sqlrest/ClosableQuery.java:31-33 | a stage registering a hook on the access its inner stages served appends exactly that hook, leaves the chain's state alone, and the access still carries the chain's hooks in order |
| Interceptors.CyclicConnectionArbiter.constructor | src/main/java/ai/libs/sqlrest/interceptors/CyclicConnectionArbiter.java:21-23 | no token has a counter yet |
| Interceptors.CyclicConnectionArbiter.RequestConnection | src/main/java/ai/libs/sqlrest/interceptors/CyclicConnectionArbiter.java:26-44 | the counter of the query's token is advanced once; the result is the round-robin pick wrapped with the query in a new access without hooks |
| Interceptors.CyclicConnectionArbiter.AdaptersFor | src/main/java/ai/libs/sqlrest/interceptors/CyclicConnectionArbiter.java:32 | the token's pool is exactly what the adapter manager hands out for it (its stored list, or the creation error), and the arbiter's counters are untouched |
| Interceptors.CyclicConnectionArbiter.SelectSlot | src/main/java/ai/libs/sqlrest/interceptors/CyclicConnectionArbiter.java:32-39 | the checks between reading the counter and taking the adapter agree with `Pick` in every case |
| Interceptors.LimitedAccessConnectionInterceptor.constructor | src/main/java/ai/libs/sqlrest/interceptors/LimitedAccessConnectionInterceptor.java:22-25 | no token has a semaphore yet |
| Interceptors.LimitedAccessConnectionInterceptor.RequestConnection | src/main/java/ai/libs/sqlrest/interceptors/LimitedAccessConnectionInterceptor.java:28-36 | one permit is taken before delegating and not returned when the delegate fails; on success exactly one release hook is appended after the inner stages' hooks |
| Interceptors.LimitedAccessConnectionInterceptor.Release | src/main/java/ai/libs/sqlrest/interceptors/LimitedAccessConnectionInterceptor.java:38-44 | unknown token: IllegalStateException and no change; otherwise one permit back for the closed query's token only |
| Interceptors.QueryTimeRecorder.constructor | src/main/java/ai/libs/sqlrest/interceptors/QueryTimeRecorder.java:16-19 | keeps the given runtime model |
| Interceptors.QueryTimeRecorder.RequestConnection | src/main/java/ai/libs/sqlrest/interceptors/QueryTimeRecorder.java:22-28 | the inner stages are asked first; the same access is returned with exactly one latency hook appended, measuring from the clock reading taken once the inner stages have answered |
| Interceptors.WatchTimer.constructor | src/main/java/ai/libs/sqlrest/interceptors/WatchdogInterceptor.java:210-214 | a new timer is running, unlogged, with id -1, started now with the given threshold |
| Interceptors.WatchTimer.OverdueAt | src/main/java/ai/libs/sqlrest/interceptors/WatchdogInterceptor.java:216-234 | finishing at `now` requeues the timer exactly when the query ran strictly longer than its threshold, the test as written |
| Interceptors.WatchTimer.IsTimedOut | src/main/java/ai/libs/sqlrest/interceptors/WatchdogInterceptor.java:232-238 | a finished timer is timed out iff it ran strictly longer than its threshold; a running one iff no time remains at `now` |
| Interceptors.WatchTimer.GetExecTime | src/main/java/ai/libs/sqlrest/interceptors/WatchdogInterceptor.java:251-256 | the execution time exists iff the timer has finished, and is `finishedTime - timeStarted` |
| Interceptors.WatchTimer.SetFinished | src/main/java/ai/libs/sqlrest/interceptors/WatchdogInterceptor.java:216-222 | the timer is finished at `now`; the watchdog's queue grows by this timer iff the strict test as written finds it overdue; nothing else of the watchdog changes |
| Interceptors.WatchdogInterceptor.constructor | src/main/java/ai/libs/sqlrest/interceptors/WatchdogInterceptor.java:41-51 | thresholds of zero or less become 1; inactive, empty queue, empty cache |
| Interceptors.WatchdogInterceptor.StartWatchdog | src/main/java/ai/libs/sqlrest/interceptors/WatchdogInterceptor.java:53-63 | a second start while the thread runs fails with IllegalStateException; otherwise the watchdog becomes active |
| Interceptors.WatchdogInterceptor.StopWatchDog | src/main/java/ai/libs/sqlrest/interceptors/WatchdogInterceptor.java:65-80 | always inactive afterwards; a running thread has its queue cleared, and a thread that does not end in time gives a plain RuntimeException with the fixed message |
| Interceptors.WatchdogInterceptor.GetThreshold | src/main/java/ai/libs/sqlrest/interceptors/WatchdogInterceptor.java:91-113 | threshold and new cache are those of `ThresholdStep` for the current sample count |
| Interceptors.WatchdogInterceptor.CreateTimeout | src/main/java/ai/libs/sqlrest/interceptors/WatchdogInterceptor.java:115-120 | a fresh running timer with that threshold is appended to the queue's tail |
| Interceptors.WatchdogInterceptor.RequestConnection | src/main/java/ai/libs/sqlrest/interceptors/WatchdogInterceptor.java:83-89 | the inner stages are asked first; when the request succeeded while the watchdog is active, a fresh timer is the access's last close hook and the queue's new tail, its threshold and the new threshold cache are `ThresholdStep` of the old cache, the sample count and the quantile estimate, and it starts running at the request's clock reading; otherwise no timer, and queue and cache are unchanged |
| Interceptors.WatchdogInterceptor.Watch | src/main/java/ai/libs/sqlrest/interceptors/WatchdogInterceptor.java:85-87 | the returned fresh timer is appended both to the access's close hooks and to the queue; its threshold and the new cache are `ThresholdStep` of the old cache, the sample count and the quantile estimate; it starts running at `env.now`; the bottom arbiter's counters are untouched |
| Interceptors.WatchdogInterceptor.WatchLoop | src/main/java/ai/libs/sqlrest/interceptors/WatchdogInterceptor.java:135-160 | the queue's head is taken; the logger call is `Decide` of its state with the remaining queue's size and running count, and the timer's flags become `AfterLog` of that call |
| Interceptors.WatchdogInterceptor.LogFinishedUpdate | src/main/java/ai/libs/sqlrest/interceptors/WatchdogInterceptor.java:162-170 | the completion update carries the id and execution time; the execution time is marked logged only when the logger accepted it; a running timer makes no call |
| Interceptors.WatchdogInterceptor.LogTimeout | src/main/java/ai/libs/sqlrest/interceptors/WatchdogInterceptor.java:172-188 | the timeout record carries the execution time iff the timer has finished; an accepted record stores the id and sets `logged`, plus `execTimeLogged` when it carried a time |
| Interceptors.QueryTimer.constructor | src/main/java/ai/libs/sqlrest/interceptors/QueryTimer.java:27-31 | a new timer is running with no finished time, id -1 and no finish hook |
| Interceptors.QueryTimer.SetFinishHook | src/main/java/ai/libs/sqlrest/interceptors/QueryTimer.java:105-107 | the hook is set; the finished flag, the finished time and the id are unchanged |
| Interceptors.QueryTimer.SetId | src/main/java/ai/libs/sqlrest/interceptors/QueryTimer.java:100-102 | the id changes and nothing else |
| Interceptors.QueryTimer.SetFinished | src/main/java/ai/libs/sqlrest/interceptors/QueryTimer.java:33-38 | finished with finished time `now`, the id and the hook unchanged; a set finish hook receives the execution time `now - timeStarted` |
| Interceptors.QueryTimer.GetExecTime | src/main/java/ai/libs/sqlrest/interceptors/QueryTimer.java:65-67 | fails (empty Optional) iff there is no finished time, else `finishedTime - timeStarted` |
| Interceptors.QueryTimer.GetRemainingMillis | src/main/java/ai/libs/sqlrest/interceptors/QueryTimer.java:69-71 | the remaining time is the watchdog's `RemainingMillis` of the timer's view, and it is at most zero iff the elapsed time since the start has reached the threshold |
| Interceptors.QueryTimer.IsTimedOut | src/main/java/ai/libs/sqlrest/interceptors/QueryTimer.java:49-55 | a finished timer is timed out iff `threshold < execTime`, a running one iff no time remains; it fails only when the flag is set without a finished time |
| WatchdogLogic.OverdueStaysOverdue | src/main/java/ai/libs/sqlrest/interceptors/WatchdogInterceptor.java:216-222 | with the single boundary, a running query found overdue is requeued when it finishes later |
| WatchdogLogic.OnTimeNeverTimedOut | src/main/java/ai/libs/sqlrest/interceptors/WatchdogInterceptor.java:232-238 | a query finished within its threshold is never timed out and never requeued |
| WatchdogLogic.BoundaryCompletionUpdateLost | src/main/java/ai/libs/sqlrest/interceptors/WatchdogInterceptor.java:232-238 | the strict test as written drops the completion update of a query that finishes exactly at its threshold after being logged |
| WatchdogLogic.TestsDifferOnlyAtThreshold | src/main/java/ai/libs/sqlrest/interceptors/WatchdogInterceptor.java:232-238 | the test as written implies the single-boundary test, and they differ exactly for a query that finished after exactly its threshold |
| WatchdogLogic.Decide | src/main/java/ai/libs/sqlrest/interceptors/WatchdogInterceptor.java:146-159 | with the timeout test as written: a timeout record iff overdue and not logged, carrying the execution time iff finished; a completion update iff overdue, logged, finished and its time not logged; no call otherwise |
| WatchdogLogic.AfterLog | src/main/java/ai/libs/sqlrest/interceptors/WatchdogInterceptor.java:162-188 | a failed call or no call changes nothing; the flags only ever get set; threshold and times never change |
| WatchdogLogic.AtMostOneTimeoutRecord | src/main/java/ai/libs/sqlrest/interceptors/WatchdogInterceptor.java:149-155 | over any sequence of watch-loop passes and closes, a timer is recorded as timed out at most once |
| WatchdogLogic.AtMostOneExecTimeRecord | src/main/java/ai/libs/sqlrest/interceptors/WatchdogInterceptor.java:162-188 | over any sequence of events, a query's execution time is stored at most once |
| WatchdogLogic.FeasibleTimes | src/main/java/ai/libs/sqlrest/interceptors/WatchdogInterceptor.java:136-145 | in a history whose clock never goes back, every event happens no earlier than the first |
| WatchdogLogic.OnTimeQueryIsSilent | src/main/java/ai/libs/sqlrest/interceptors/WatchdogInterceptor.java:146-149 | a query whose closes all happen within its threshold causes no logger call and no requeue |
| WatchdogLogic.TwoPhaseOverrun | src/main/java/ai/libs/sqlrest/interceptors/WatchdogInterceptor.java:149-155 | a running query found overdue is logged as a timeout without execution time; when it finishes strictly after its threshold it is requeued and then completed with the id of the first record |
| WatchdogLogic.SlowQueryFinishedBeforeWatch | src/main/java/ai/libs/sqlrest/interceptors/WatchdogInterceptor.java:149-158 | a query that finishes strictly after its threshold, before its timer is taken, is queued twice, recorded once with its execution time, and the second pass makes no call |
| WatchdogLogic.BoundaryFinishNotRecorded | src/main/java/ai/libs/sqlrest/interceptors/WatchdogInterceptor.java:216-238 | a query that finishes after exactly its threshold, before its timer is taken, is neither requeued nor recorded |
| WatchdogLogic.ThresholdBounds | src/main/java/ai/libs/sqlrest/interceptors/WatchdogInterceptor.java:108-112 | the threshold lies between 1 and the static threshold |
| WatchdogLogic.ThresholdChoice | src/main/java/ai/libs/sqlrest/interceptors/WatchdogInterceptor.java:91-112 | static threshold and unchanged cache when dynamic mode is off or fewer than 50 samples exist; otherwise the cached estimate raised to the floor and capped by the static threshold |
| WatchdogLogic.RefreshAmortised | src/main/java/ai/libs/sqlrest/interceptors/WatchdogInterceptor.java:99-107 | the cache is refreshed iff more than 100 samples arrived since the last refresh, and then not again until 100 more arrive |
| WatchdogLogic.EarlyDynamicThresholdIsFloor | src/main/java/ai/libs/sqlrest/interceptors/WatchdogInterceptor.java:96-112 | before the first refresh (50 to 100 samples) the dynamic threshold is the floor capped by the static threshold, whatever the samples say |
| Supplier.AddLong | src/main/java/ai/libs/sqlrest/supplier/BaseConnectionHandler.java:33 | Java long addition: the exact sum whenever it fits in 64 bits |
| Supplier.Connection.Close | src/main/java/ai/libs/sqlrest/supplier/BaseConnectionHandler.java:57 | the driver's answer is returned; the connection is closed iff it succeeded |
| Supplier.AfterGet | src/main/java/ai/libs/sqlrest/supplier/BaseConnectionHandler.java:28-46 | a connection idle past the timeout is closed and replaced, otherwise reused; a success sets the last-use time to now and never returns null; a null from the supplier is an SQLException; a failure keeps the last-use time |
| Supplier.AfterClose | src/main/java/ai/libs/sqlrest/supplier/BaseConnectionHandler.java:55-60 | no connection: nothing happens; otherwise the driver's answer, and the connection is dropped iff the close succeeded |
| Supplier.BaseConnectionHandler.constructor | src/main/java/ai/libs/sqlrest/supplier/BaseConnectionHandler.java:17-26 | no connection, last use at Long.MIN_VALUE, a five-minute timeout, the given credentials |
| Supplier.BaseConnectionHandler.GetConnection | src/main/java/ai/libs/sqlrest/supplier/BaseConnectionHandler.java:28-46 | the new state and result are `AfterGet`'s; an idle connection that was closed successfully is closed |
| Supplier.BaseConnectionHandler.CreateConnection | src/main/java/ai/libs/sqlrest/supplier/BaseConnectionHandler.java:48-53 | the supplier's connection is stored; null stores nothing and fails with SQLException; the last-use time is not touched |
| Supplier.BaseConnectionHandler.CloseConnection | src/main/java/ai/libs/sqlrest/supplier/BaseConnectionHandler.java:55-60 | the new state and outcome are `AfterClose`'s; without a connection nothing changes |
| Supplier.CloseIdempotent | src/main/java/ai/libs/sqlrest/supplier/BaseConnectionHandler.java:55-60 | after a successful close a second close does nothing |
| Supplier.FirstUseOpens | src/main/java/ai/libs/sqlrest/supplier/BaseConnectionHandler.java:17-46 | a new holder opens its connection on first use at any clock value |
| Supplier.ReuseWithinTimeout | src/main/java/ai/libs/sqlrest/supplier/BaseConnectionHandler.java:33-45 | two uses within the timeout share one connection, and the second neither closes nor opens one |
| Supplier.IdleReplaced | src/main/java/ai/libs/sqlrest/supplier/BaseConnectionHandler.java:33-42 | a use after more than the timeout replaces the connection with the supplier's new one |
| CustomServiceAdapter.GetRowIteratorOfTable | src/main/java/ai/libs/sqlrest/supplier/CustomServiceAdapter.java:94-107 | the statement is `SELECT * FROM` the quoted table plus nothing for no conditions, else WHERE and the `key = (?)` comparisons joined by AND; the values are the condition values in the same order |
| CustomServiceAdapter.SelectMarksMatchValues | src/main/java/ai/libs/sqlrest/supplier/CustomServiceAdapter.java:94-106 | with marker-free names, the statement has exactly one placeholder per value it binds |
| CustomServiceAdapter.SetClause | src/main/java/ai/libs/sqlrest/supplier/CustomServiceAdapter.java:317-325 | the SET part joins `key = (?)` with commas, and every update value is collected in order |
| CustomServiceAdapter.ConditionClause | src/main/java/ai/libs/sqlrest/supplier/CustomServiceAdapter.java:328-340 | conditions are joined by AND; a null value becomes `key IS NULL` and binds nothing, any other `key = (?)` and binds its value after the earlier ones |
| CustomServiceAdapter.Update | src/main/java/ai/libs/sqlrest/supplier/CustomServiceAdapter.java:313-349 | the statement is `UPDATE table SET ... WHERE ...`, and the values are the update values followed by the non-null condition values |
| CustomServiceAdapter.ConditionPartsMarks | src/main/java/ai/libs/sqlrest/supplier/CustomServiceAdapter.java:328-340 | the condition part has one placeholder per non-null condition value |
| CustomServiceAdapter.UpdateMarksMatchValues | src/main/java/ai/libs/sqlrest/supplier/CustomServiceAdapter.java:313-354 | with marker-free names, the update statement has exactly as many placeholders as values it binds |
| CustomServiceAdapter.UpdateWithoutConditions | src/main/java/ai/libs/sqlrest/supplier/CustomServiceAdapter.java:343-349 | without conditions the statement still ends in a bare WHERE |
| CustomServiceAdapter.BindParameters | src/main/java/ai/libs/sqlrest/supplier/CustomServiceAdapter.java:144-146 | parameters `1..n` are bound, parameter i to `values[i - 1]`, and no other |
| CustomServiceAdapter.ChunkCountBounds | src/main/java/ai/libs/sqlrest/supplier/CustomServiceAdapter.java:243 | `ceil(n / chunkSize)` chunks: none for no rows, and the last one starts before the end and reaches it |
| CustomServiceAdapter.Chunk | src/main/java/ai/libs/sqlrest/supplier/CustomServiceAdapter.java:244-246 | each chunk is non-empty and at most `chunkSize` rows long |
| CustomServiceAdapter.InsertMultipleChunks | src/main/java/ai/libs/sqlrest/supplier/CustomServiceAdapter.java:243-246 | the loop yields `ceil(n / chunkSize)` chunks, chunk i being rows `[i * chunkSize, min((i + 1) * chunkSize, n))`, and together, in order, they are exactly the rows; a negative chunk size yields none, so no row is inserted |
| CustomServiceAdapter.ChunkLoopTest | src/main/java/ai/libs/sqlrest/supplier/CustomServiceAdapter.java:243 | for a non-zero chunk size the floating-point loop test `i < ceil(n / chunkSize)` holds exactly for the chunk indices |
| CustomServiceAdapter.ZeroChunkSizeNeverStops | src/main/java/ai/libs/sqlrest/supplier/CustomServiceAdapter.java:243-246 | with chunk size 0 and at least one row the loop test holds for every i and every chunk is empty |
| CustomServiceAdapter.InsertMultipleChecked | src/main/java/ai/libs/sqlrest/supplier/CustomServiceAdapter.java:239-246 | with the chunk size checked first: refused with IllegalArgumentException iff the chunk size is below 1 and there are rows; an accepted call places every row in exactly one chunk, in order, each chunk non-empty and at most `chunkSize` long |
| CustomServiceAdapter.CreateTable | src/main/java/ai/libs/sqlrest/supplier/CustomServiceAdapter.java:428-437 | the statement built step by step is `CreateTableText` |
| CustomServiceAdapter.ColumnsOf | src/main/java/ai/libs/sqlrest/supplier/CustomServiceAdapter.java:432-435 | the field loop yields the column definitions of all field names, in order |
| CustomServiceAdapter.ColumnAt | src/main/java/ai/libs/sqlrest/supplier/CustomServiceAdapter.java:433 | every field's `` `key` type NOT NULL, `` definition sits among the columns right after those of the fields before it |
| Controller.AssertLegalQuery | src/main/java/ai/libs/sqlrest/QueryController.java:86-90 | passes iff the statement has no `;`, otherwise IllegalArgumentException with the semicolon message |
| Controller.Validate | src/main/java/ai/libs/sqlrest/QueryController.java:44-48 | passes iff the statement check passes; any failure becomes IllegalArgumentException "Query is not allowed" |
| Controller.WithResource | src/main/java/ai/libs/sqlrest/QueryController.java:49-52 | try-with-resources: success iff the body and the close both succeed; the body's exception wins; a failed close alone replaces the body's result |
| Controller.CloseAfter | src/main/java/ai/libs/sqlrest/QueryController.java:49-52 | the connection is closed, running its hooks in order, whether the adapter call returned or threw; the result is `WithResource` of the answer and the close |
| Controller.QueryController.constructor | src/main/java/ai/libs/sqlrest/QueryController.java:33-36 | keeps the given interceptor and runtime model |
| Controller.QueryController.Handle | src/main/java/ai/libs/sqlrest/QueryController.java:42-79 | an illegal statement is refused with "Query is not allowed" before any connection is requested, and no stage changes; a failed request is returned as is; otherwise the adapter gets the handler's call (an insert with no values), the fresh connection carries the chain's hooks, and the close runs them in order, so the hooks' targets (permits, latency samples, timers, watchdog queues) end as the first `done` hooks leave them; the result follows try-with-resources precedence |

## Left out

- The random selectors are not part of this model: they draw a floating-point random index.
- QueryRuntimeModel keeps its latencies as a plain sequence. The t-digest, its double quantiles, `getQueryTimes` and the `/runtime` endpoint are left out. The watchdog takes the quantile estimate as an integer parameter, so the `(long)` cast of the double is not modelled.
- Interceptors.WatchdogInterceptor.GetThreshold: the compare-and-set that elects one refreshing thread always succeeds sequentially, so it is modelled as a plain update.
- Threads, `wait`/`notifyAll`, the daemon watch thread, `join` and the blocking deque are concurrency. The watch loop is one pass taken after the wait is over. A running watch thread is a boolean, and whether it ends in time is a parameter of `StopWatchDog`. The catch-all around the watch loop is not modelled.
- Blocking in `Semaphore.acquire` is concurrency. A completed acquire needs a permit left, so `Admits` and `Available(...) > 0` are preconditions, and thread interruption is left out.
- Interceptors.Request: besides the bottom arbiter's counters it does not restate the chain's new state: the permit each limited-access stage took, the timer each active watchdog queued, and that no latency sample is recorded during a request. Each stage method states its own part (`WatchdogInterceptor.RequestConnection` returns the queued timer as a ghost result for this).
- Interceptors.QueryTimeRecorder.RequestConnection: a request has one clock reading, taken once the inner stages have answered. Because taking a permit never waits in this model, the time a request spends waiting for admission, which the recorder does not measure, does not arise.
- The database and JDBC are represented by their answers: the administrative query's rows, the supplier's adapter or connection, the driver's answer to a close, and the query logger's success and returned id. Statement execution, auto-commit handling, result serialisation and generated keys are left out.
- CustomServiceAdapter.BindParameters: `setValue`'s dispatch on the runtime type of each value (int, long, double, string, object) is not modelled. The binding records which value goes to which position.
- CustomServiceAdapter.CreateTable: the key-field text that `createTable` builds but never uses is not modelled.
- CustomServiceAdapter.InsertMultipleChunks: a chunk size of 0 with rows to insert loops forever (see Findings), and 32-bit overflow of the largest chunk bound, `ceil(n / chunkSize) * chunkSize`, is not modelled. Both are excluded by its precondition. The SQL text of each multi-row insert is built by a query builder that is not part of this model.
- Java's `HashMap` iteration order is unspecified. The builders take the entries in iteration order as input.
- Controller.Validate: the original exception is chained as the cause of "Query is not allowed"; the model keeps only the message.
- Controller.QueryController.Handle: on the illegal path it states that the chain's stages are unchanged, but not the adapter manager's handles (nothing is requested there).
- The Spring wiring that assembles the interceptor chain ("interceptorConf") is not part of this model. The chain is any `Interceptor` value: the cyclic arbiter with any stack of limited-access, latency-recording and watchdog stages.
- TokenConnectionHandle's configuration is a parameter (`Config`). The fixed admin query text is not modelled; its answer is an input.
- Log messages and formatted numbers in exception messages are left out; exception messages are kept as their fixed text.

## Findings

| source | as written | input that shows it | evidently intended | confidence | as-written member | corrected member |
|---|---|---|---|---|---|---|
| src/main/java/ai/libs/sqlrest/interceptors/WatchdogInterceptor.java:232-238 | a finished timer is timed out only if `threshold < execTime`, while a running one is timed out once `remaining <= 0`, i.e. once `now - start >= threshold` | threshold 2000, started at 0: the watch loop logs the running query as timed out at 2000; it finishes at 2000, `2000 < 2000` is false, so its timer is not requeued and the completion update is never written | one boundary for both cases (`threshold <= execTime`), so a query that was logged as overdue is always requeued when it finishes | not executed | WatchdogLogic.TimedOutAsWritten, WatchdogLogic.RequeuedAsWritten, WatchdogLogic.BoundaryCompletionUpdateLost | WatchdogLogic.TimedOut, WatchdogLogic.Requeued, WatchdogLogic.OverdueStaysOverdue |
| src/main/java/ai/libs/sqlrest/supplier/CustomServiceAdapter.java:243-246 | the loop runs while `i < Math.ceil(n * 1.0 / chunkSize)`; a chunk size of 0 makes the bound +Infinity when there are rows, and every chunk `[i * 0, min((i + 1) * 0, n))` is empty | one row and chunk size 0: the loop test holds on every pass and each pass asks for a statement over an empty row range, so the call never completes with the row inserted (it runs forever unless the query builder, which is not part of this model, throws on an empty range) | a chunk size below 1 is refused, and every accepted call inserts each row exactly once | not executed; medium | CustomServiceAdapter.ChunkLoopContinuesAsWritten, CustomServiceAdapter.ZeroChunkSizeNeverStops | CustomServiceAdapter.InsertMultipleChecked |
