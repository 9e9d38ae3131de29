# Kalinda HttpServer: lifecycle and task-count controller, in Dafny

This project models the core of Kalinda's `HttpServer`, an embeddable HTTP server
front-end over `System.Net.HttpListener`, and proves properties of the model:

- **Construction** (`Configuration`): the three convenience constructors, `EnsureConfig`,
  `ApplyConfiguration` with its defaults and bound checks, and the listener prefix URL.
  All of these are pure functions. A construction that would throw returns `Err`.
- **The request outcome record** (`RequestEvents`): `RequestCompletedEventArgs`, whose
  `Success` is derived from `Exception`.
- **Request finalisation** (`RequestProcessing`): what `ProcessRequest` does with one
  accepted request. This is a function of the handler's outcome and of whether the
  500 reset throws.
- **The controller** (`Server.HttpServer`): a class holding the server state, the task
  bounds and settings, the task count `_totalServerTasks`, the shutdown countdown
  `_shutdownEvent` (as a number), the one-shot completion of `_shutdownCompletionSource`,
  and a map from task id to phase (Posted, Checked or Processing) for the live `AcceptRequest`
  invocations. Each lifecycle call and each `lock (_lock)` region is one atomic method.
  The environment's steps are methods too:
  - a posted task sees shutdown win;
  - a posted task's accept completes or faults;
  - a task's `GetContextAsync` throws;
  - a processing task finishes.

  Any sequence of calls keeps `Valid()`. `Valid()` states:
  - the countdown equals the number of live tasks, plus 1 until `Stop` releases
    `Start`'s unit. So it reaches zero exactly when every task has exited.
  - the count equals the number of live tasks plus a ghost `drift`. The drift is the
    number of tasks that left through the catch path (lines 184-191), which never
    touches the count. A negative minimum set before `Start` also adds to it.
  - the count is at most the maximum whenever min <= max.
  - until shutdown is raised, the count is at least the minimum.
  - every connection a task observed has produced exactly one
    `RequestCompleted` record, is still being processed, or was dropped at line 134.
    A connection is dropped when its accept and shutdown have both completed: it is
    never processed, closed, aborted or reported. A ghost `dropped` counts these.

`Stop` blocks in `_shutdownEvent.Wait` while the tasks drain, so it is two steps:
- `Stop` covers lines 95-99. It completes the shutdown source and releases `Start`'s
  countdown unit.
- `FinishStop` covers lines 100-112. A timeout below -1 is refused by `Wait` at once.
  Otherwise the wait has ended: the server is Stopped when the countdown is zero, and
  otherwise the call fails with a timeout.

The environment decides when the wait ends, which models the deadline. With a timeout
of -1, the wait has no deadline and ends only once the countdown is zero. The
`stopWaiting` field stands for the blocked call.

Behaviour of the code that the model keeps, including its quirks:
- The count is not kept in [min, max] by construction-time checks alone. The
  `MinServerTasks`/`MaxServerTasks` setters do not re-check min <= max, and `Start`
  validates nothing.
- A task that faults keeps its unit of the count. So after a fault, the count at drain
  is not zero. `FinishStop` states that it equals `drift`. `Trace.Assert` (line 108) is
  modelled as not stopping the call, so `Stop` still succeeds. That holds for a trace
  listener that only logs. The default listener instead shows a blocking dialog in an
  interactive process on .NET Framework, and calls `Environment.FailFast` on .NET Core.
- The shutdown signal is not idempotent. A second `Stop` after a timeout fails in
  `SetResult` and changes nothing. Because the server then stays Running, it can
  neither be stopped nor disposed again.
- `Dispose` does not look at the task count.
- The check for shutdown (line 134) and the admission lock (line 146) are separate. A
  task can pass the check, let `Stop` run, and then be admitted. The check is its own
  step, `PassCheck`, which only a task whose wait ended before shutdown can take. It
  moves the task to the `Checked` phase. Only `Checked` tasks can be admitted
  (`AcceptCompletes`) or fault through the admission region (`AcceptFaults`), even
  after shutdown was raised. A task still `Posted` once shutdown is raised can only
  leave through `ShutdownWins`, or through `TaskFaults` when `GetContextAsync` throws
  at once. So after `Stop`, admissions are limited to tasks that were already checked.
- `ShutdownTimeout` is stored unchecked (lines 412-415) and has no setter. A value below
  -1 makes `Wait` at line 100 throw on every `Stop`, after `SetResult` and `Signal`
  have run, so the server stays Running and can never be stopped. `FinishStop` fails
  with `InvalidWaitTimeout` there. A value of -1 waits without a deadline.
- With both task bounds left at 0, `ProcessorCount / 2` must not exceed 1000. On a
  machine with more than 2001 processors, construction fails (`DefaultBoundsClash`).

## Model

| member | source | states |
|---|---|---|
| `Decimal.DecimalString` | Kalinda.Server/HttpServer.cs:62 | the port's text is a non-empty string of digits with no leading zero |
| `Decimal.DecimalRoundTrip` | Kalinda.Server/HttpServer.cs:62 | reading the port's text back gives the port |
| `Decimal.DecimalStringInjective` | Kalinda.Server/HttpServer.cs:62 | different ports have different texts |
| `RequestEvents.RequestCompletedEventArgs.WithUrl` | Kalinda.Server/RequestCompletedEventArgs.cs:7 | setting `Url` changes only the URL and never changes `Success` |
| `RequestEvents.RequestCompletedEventArgs.WithRequestDurationTickCount` | Kalinda.Server/RequestCompletedEventArgs.cs:8 | setting the duration changes only the duration and never changes `Success` |
| `RequestEvents.RequestCompletedEventArgs.WithException` | Kalinda.Server/RequestCompletedEventArgs.cs:9-13 | setting `Exception` makes `Success` true exactly when the new exception is null |
| `RequestEvents.NewRequestCompletedEventArgs` | Kalinda.Server/RequestCompletedEventArgs.cs:5-13 | a fresh record has no URL, zero duration, no exception, and reports `Success` |
| `RequestEvents.SuccessFollowsException` | Kalinda.Server/RequestCompletedEventArgs.cs:10-13 | `Success` is not stored: a non-null exception makes it false, and resetting to null makes it true again |
| `Configuration.HostPathConfiguration` | Kalinda.Server/HttpServer.cs:40-42 | the two-argument constructor stores host and path; the port stays null, SSL off, both bounds 0 and every other setting null |
| `Configuration.HostPortPathConfiguration` | Kalinda.Server/HttpServer.cs:44-46 | the three-argument constructor stores host, port and path; SSL stays off, both bounds 0 and every other setting null |
| `Configuration.HostPortSslPathConfiguration` | Kalinda.Server/HttpServer.cs:48-50 | the four-argument constructor stores host, port, SSL flag and path; both bounds stay 0 and every other setting null |
| `Configuration.EnsureConfig` | Kalinda.Server/HttpServer.cs:632-637 | "missing config" is thrown exactly for a null configuration |
| `Configuration.EnsureConfigAccepts` | Kalinda.Server/HttpServer.cs:632-648 | a configuration passes exactly when its path is present and starts with '/'; null, empty and whitespace-only paths fail as missing, any other path without '/' as not rooted, and nothing else is checked |
| `Configuration.TaskBound` | Kalinda.Server/HttpServer.cs:389-405 | a positive configured bound overrides the default, zero keeps the default, and a negative one throws |
| `Configuration.ApplyConfiguration` | Kalinda.Server/HttpServer.cs:377-451 | a successful result has a non-empty host, a port of at most 65535 and 0 <= min <= max; `ApplyConfigurationOutcome` and `ApplyConfigurationErrors` give the exact conditions and values |
| `Configuration.NewEndPoint` | Kalinda.Server/HttpServer.cs:382 | the end point is built exactly when the host is non-empty and the port lies in 0..65535 |
| `Configuration.ApplyConfigurationOutcome` | Kalinda.Server/HttpServer.cs:377-451 | succeeds exactly when the end point is valid, both bounds are >= 0 and effective min <= max; host, port, bounds, shutdown timeout and queue length then take their configured values or the defaults localhost, 8080, ProcessorCount/2, 1000, 120000 and 1000 |
| `Configuration.ApplyConfigurationErrors` | Kalinda.Server/HttpServer.cs:379-410 | which exception is thrown, exactly, in check order: empty host, port range, then (with a valid end point) negative min, then negative max, then min > max |
| `Configuration.ListenerUrl` | Kalinda.Server/HttpServer.cs:60-65 | the prefix is non-empty and ends in '/'; its parts are stated in `ListenerUrlScheme`, `PortSuffixRules` and `ListenerUrlTrailingSlash` |
| `Configuration.ListenerUrlScheme` | Kalinda.Server/HttpServer.cs:60 | the prefix starts with "https://" exactly when SSL is enabled, and with "http://" otherwise |
| `Configuration.PortSuffixRules` | Kalinda.Server/HttpServer.cs:62 | ":port" is left out exactly when the port is 80; otherwise it is ':' followed by digits that read back as the port |
| `Configuration.ListenerUrlTrailingSlash` | Kalinda.Server/HttpServer.cs:64-65 | the prefix always ends in '/', and nothing is appended when the path already ends in one |
| `Configuration.Construct` | Kalinda.Server/HttpServer.cs:52-68 | construction succeeds only when `EnsureConfig` and `ApplyConfiguration` both succeed; `ConstructOutcome` states the converse and the result |
| `Configuration.ConstructOutcome` | Kalinda.Server/HttpServer.cs:52-68 | construction succeeds exactly when both checks pass (exceptions of `new Uri` are not modelled); the server then has a rooted path, 0 <= min <= max, and a prefix made of scheme, host, port suffix and path, ending in '/' |
| `Configuration.RelativePathRefused` | Kalinda.Server/HttpServer.cs:644-647 | the path "api" is refused for lacking its leading slash |
| `Configuration.MinAboveMaxRefused` | Kalinda.Server/HttpServer.cs:407-410 | min 5 with max 2 is refused |
| `Configuration.DefaultBoundsClash` | Kalinda.Server/HttpServer.cs:18-19 | with both bounds unset, construction fails on more than 2001 processors |
| `Configuration.DefaultPrefix` | Kalinda.Server/HttpServer.cs:379-380 | with only the path "/api" given, the prefix is http://localhost:8080/api/ |
| `RequestProcessing.ProcessRequest` | Kalinda.Server/HttpServer.cs:194-254 | an HttpListenerException aborts and records no exception; any other exception is recorded, the 500 reset is tried, and the response aborts only if the reset throws; otherwise the response closes; URL and duration are recorded only when the handler returned |
| `RequestProcessing.ProcessRequestSummary` | Kalinda.Server/HttpServer.cs:214-249 | the response aborts exactly on a listener fault or a failed reset; the record reports success exactly when no non-listener exception was thrown |
| `Server.ApplySetting` | Kalinda.Server/HttpServer.cs:461-585 | each of the nine setters stores its own value and changes no other setting; the task-bound setters store the value with no min <= max check |
| `Server.LastIndexOf` | Kalinda.Server/HttpServer.cs:297-300 | finds the last registration of a handler, or reports that there is none |
| `Server.RemoveHandler` | Kalinda.Server/HttpServer.cs:297-300 | `-=` removes the last registration of the handler and keeps the others in order, or changes nothing when it is not registered |
| `Server.HttpServer.constructor` | Kalinda.Server/HttpServer.cs:52-68 | a constructed server is Stopped with no tasks, no handler and no subscribers, and holds the settings and prefix that `Construct` computes |
| `Server.HttpServer.EnsureHttpServerState` | Kalinda.Server/HttpServer.cs:621-630 | passes exactly in the required state; otherwise it fails and names the state it found |
| `Server.HttpServer.DisposedIsTerminal` | Kalinda.Server/HttpServer.cs:115-122 | no guarded operation accepts the Disposed state |
| `Server.HttpServer.CountdownDrained` | Kalinda.Server/HttpServer.cs:98-100 | the countdown is zero exactly when shutdown was raised and every task has exited; the count is then the drift, and every observed connection has completed or was dropped |
| `Server.HttpServer.PostAcceptRequest` | Kalinda.Server/HttpServer.cs:256-264 | each post adds one posted task under a fresh id and one countdown unit |
| `Server.HttpServer.Start` | Kalinda.Server/HttpServer.cs:72-91 | Stopped -> Running with count = min, max(min, 0) posted tasks and countdown 1 + that; in any other state it fails and changes nothing |
| `Server.HttpServer.Stop` | Kalinda.Server/HttpServer.cs:93-99 | only in Running, and only once: it raises shutdown and releases Start's unit; otherwise it fails and changes nothing (a second Stop fails in SetResult) |
| `Server.HttpServer.FinishStop` | Kalinda.Server/HttpServer.cs:100-112 | succeeds exactly when the timeout is at least -1 and every task has exited; the server is then Stopped with count = drift and every observed connection completed or dropped; a timeout below -1 fails in `Wait` and -1 never times out; on failure the server stays Running |
| `Server.HttpServer.Dispose` | Kalinda.Server/HttpServer.cs:115-122 | Stopped -> Disposed; in any other state it fails and changes nothing |
| `Server.HttpServer.Set` | Kalinda.Server/HttpServer.cs:461-585 | each property setter stores its value only in Stopped, and changes no other field |
| `Server.HttpServer.SetOnRequest` | Kalinda.Server/HttpServer.cs:275-283 | the handler is stored only in Stopped |
| `Server.HttpServer.Subscribe` | Kalinda.Server/HttpServer.cs:285-329 | `add` appends to that event's list only in Stopped; the other events are unchanged |
| `Server.HttpServer.Unsubscribe` | Kalinda.Server/HttpServer.cs:293-339 | `remove` drops the last registration only in Stopped |
| `Server.HttpServer.ShutdownWins` | Kalinda.Server/HttpServer.cs:134-142 | a posted task that sees shutdown decrements the count, posts nothing and releases one countdown unit; a connection that had also arrived is counted as dropped |
| `Server.HttpServer.Admit` | Kalinda.Server/HttpServer.cs:146-161 | below the maximum, the count is incremented and reported and a new accept is posted; at the maximum, nothing changes |
| `Server.HttpServer.PassCheck` | Kalinda.Server/HttpServer.cs:132-134 | a posted task passes the shutdown check only while shutdown is not raised, and becomes Checked |
| `Server.HttpServer.AcceptCompletes` | Kalinda.Server/HttpServer.cs:144-163 | a checked task's connection moves the task to Processing after the admission region, and is counted as accepted |
| `Server.HttpServer.FaultExit` | Kalinda.Server/HttpServer.cs:184-191 | the catch path reports the error and releases one countdown unit but leaves the count alone (drift + 1) |
| `Server.HttpServer.TaskFaults` | Kalinda.Server/HttpServer.cs:128-191 | a GetContextAsync that throws at once drops the task without touching the count |
| `Server.HttpServer.AcceptFaults` | Kalinda.Server/HttpServer.cs:144-191 | a checked task's faulted accept passes the admission region, then leaves through the catch path, so the count keeps any unit it gained |
| `Server.HttpServer.Release` | Kalinda.Server/HttpServer.cs:165-182 | if count - 1 < min, the count is kept and a replacement is posted; otherwise it is decremented and reported |
| `Server.HttpServer.CompleteRequest` | Kalinda.Server/HttpServer.cs:194-254 | exactly one completion record, the one `ProcessRequest` computes, is handed to the event |
| `Server.HttpServer.ProcessingFinishes` | Kalinda.Server/HttpServer.cs:163-191 | a finished request is completed once, then the count follows the release rule, and the task's countdown unit is released |

## Left out

- `HttpListener` itself is not modelled: `GetContextAsync`, `Start`, `Stop`, `Abort`,
  `Prefixes.Add` and `TimeoutManager`. These are operating-system calls. Accepts are
  environment steps, and the timeout setters store opaque values. The range checks
  that `TimeoutManager` makes on those values are not modelled.
- The exceptions that `HttpListener.Start` can throw in `Start` are not modelled.
- `HttpApi.SetRequestQueueLength` (line 81) uses reflection and a P/Invoke. It is
  left out; the queue length is only stored.
- IOCP posting via `Overlapped` and `ThreadPool.UnsafeQueueNativeOverlapped`
  (lines 260-271) is unsafe native plumbing. A post is "add a Posted task and one
  countdown unit".
- Real concurrency is not modelled: the threads, `Task.WhenAny`, `async void`, and the
  locks. Each lock region is atomic. The `Wait` deadline is the environment's choice
  of when `FinishStop` runs.
- `new Uri(...)` and `Uri.AbsoluteUri` (line 64) are library calls. The prefix is the
  composed text before canonicalisation. The `UriFormatException` that `new Uri` throws
  for a host that `DnsEndPoint` accepts (one with a space, say) is not modelled: there,
  `Construct` returns `Ok` where the constructor throws. `Stopwatch` timing (lines 206-210) is an input.
- `string.StartsWith("/")` compares by culture. It is modelled as an ordinal test of
  the first character, so characters that culture comparison ignores are not modelled.
- Getters are plain field reads and have no members: `ServerTaskCount`, `ServerState`,
  `ListenerUrl`, and the property getters.
- `SetHttpServerState` (lines 613-619) is a single field assignment, inlined where it
  is called.
- Null delegates passed to the event `add`/`remove` accessors are not modelled.
  Handlers are identities. `OnRequest` may be null (`None`).
- Subscribers' behaviour is not modelled. Their exceptions are swallowed at every
  emission site, so they cannot affect the controller. The model logs what is handed
  to each event. A subscriber that throws does stop the multicast `Invoke` (lines
  346, 357 and 368), so later subscribers of that event do not receive that
  emission. The model does not capture this.
- `Server.HttpServer.ShutdownWins`: with `contextArrived` false, the task's accept is
  abandoned, not cancelled. `Task.WhenAny` leaves it pending, and `_listener.Stop()`
  runs only after the drain (line 110). A connection the listener hands to that
  abandoned accept in between is never processed, closed by the server or reported.
  The model does not count such connections: `accepted` counts the connections a
  task observed.
- 32-bit integer widths are not modelled: counts, ports and timeouts are unbounded
  integers. The controller only adds or subtracts one at a time, far from the limits.
- `Server.HttpServer.FinishStop`: a failed `Trace.Assert(count == 0)` at line 108 is
  modelled as a trace listener that only logs. The default listener's dialog or
  `Environment.FailFast` would stop the call or the process, and that is not modelled.
- `Server.HttpServer.ProcessingFinishes`: the replacement post after processing
  (line 181) is assumed not to throw. The same holds for the post after admission
  (line 160) in `Server.HttpServer.AcceptCompletes` and `Server.HttpServer.AcceptFaults`. `CountdownEvent.AddCount` and `Overlapped.Pack` could fail
  only on disposal or exhaustion, so a processing task always finishes normally.
- Kalinda.Server/HttpApi.cs, Kalinda.Server/HttpServerPerf.cs,
  Kalinda.Extensions/HttpListenerExtensions.cs, the Kalinda.Configuration files and
  Kalinda.ConsoleApp/Program.cs are not part of this model. They hold reflection,
  performance counters, stream I/O, configuration-file binding and a console demo.
