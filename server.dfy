/** The lifecycle and task-count controller of `HttpServer`
  * (Kalinda.Server/HttpServer.cs) as a sequential transition system.  Every
  * lifecycle call and every `lock (_lock)` region of `AcceptRequest` is one
  * atomic method; the environment picks which step happens next. */
module Server {
  import opened Wrappers
  import opened RequestEvents
  import opened RequestProcessing
  import opened Configuration

  datatype HttpServerState = Stopped | Running | Disposed

  /** Where a live `AcceptRequest` is: waiting in `Task.WhenAny` (line 132),
    * past the shutdown check at line 134 before shutdown was raised, or
    * processing the connection it accepted. */
  datatype Phase = Posted | Checked | Processing

  type TaskId = nat

  /** The identity of a delegate a client registered. */
  type HandlerId = nat

  /** The exceptions the lifecycle calls and guarded setters throw. */
  datatype LifecycleError =
    | WrongState(actual: HttpServerState)   // "Server State: ..." from EnsureHttpServerState
    | ShutdownAlreadySignalled              // SetResult on a completed TaskCompletionSource
    | ShutdownTimeout                       // "Dispose timeout elapsed"
    | InvalidWaitTimeout                    // ArgumentOutOfRangeException from CountdownEvent.Wait

  // ---------------------------------------------------------------
  // The state-guarded property setters

  datatype SettingChange =
    | SetDrainEntityBodyTimeout(ms: int)
    | SetEntityBodyArrivalTimeout(ms: int)
    | SetHeaderWait(ms: int)
    | SetIdleConnectionTimeout(ms: int)
    | SetMinSendBytesPerSecond(bytes: int)
    | SetRequestInQueueTimeout(ms: int)
    | SetHttpRequestQueueLength(length: int)
    | SetMaxServerTasks(count: int)
    | SetMinServerTasks(count: int)

  /** The settings after one setter: the named value is stored as given (the
    * task-bound setters do not re-check min <= max); nothing else changes. */
  function ApplySetting(s: ServerSettings, change: SettingChange): (r: ServerSettings)
    ensures change.SetDrainEntityBodyTimeout? ==> r == s.(drainEntityBodyTimeout := Some(change.ms))
    ensures change.SetEntityBodyArrivalTimeout? ==> r == s.(entityBodyArrivalTimeout := Some(change.ms))
    ensures change.SetHeaderWait? ==> r == s.(headerWait := Some(change.ms))
    ensures change.SetIdleConnectionTimeout? ==> r == s.(idleConnectionTimeout := Some(change.ms))
    ensures change.SetMinSendBytesPerSecond? ==> r == s.(minSendBytesPerSecond := Some(change.bytes))
    ensures change.SetRequestInQueueTimeout? ==> r == s.(requestInQueueTimeout := Some(change.ms))
    ensures change.SetHttpRequestQueueLength? ==> r == s.(httpRequestQueueLength := change.length)
    ensures change.SetMaxServerTasks? ==> r == s.(maxServerTasks := change.count)
    ensures change.SetMinServerTasks? ==> r == s.(minServerTasks := change.count)
    ensures !change.SetMaxServerTasks? && !change.SetMinServerTasks? ==>
      r.minServerTasks == s.minServerTasks && r.maxServerTasks == s.maxServerTasks
  {
    match change
    case SetDrainEntityBodyTimeout(ms) => s.(drainEntityBodyTimeout := Some(ms))
    case SetEntityBodyArrivalTimeout(ms) => s.(entityBodyArrivalTimeout := Some(ms))
    case SetHeaderWait(ms) => s.(headerWait := Some(ms))
    case SetIdleConnectionTimeout(ms) => s.(idleConnectionTimeout := Some(ms))
    case SetMinSendBytesPerSecond(bytes) => s.(minSendBytesPerSecond := Some(bytes))
    case SetRequestInQueueTimeout(ms) => s.(requestInQueueTimeout := Some(ms))
    case SetHttpRequestQueueLength(length) => s.(httpRequestQueueLength := length)
    case SetMaxServerTasks(count) => s.(maxServerTasks := count)
    case SetMinServerTasks(count) => s.(minServerTasks := count)
  }

  // ---------------------------------------------------------------
  // Events and their invocation lists

  datatype EventKind = ServerErrorEvent | RequestCompletedEvent | ServerTaskCountChangedEvent

  /** The invocation list of each event; an empty list is a `null` delegate. */
  datatype Subscribers = Subscribers(
    serverError: seq<HandlerId>,
    requestCompleted: seq<HandlerId>,
    serverTaskCountChanged: seq<HandlerId>)
  {
    function Of(kind: EventKind): seq<HandlerId> {
      match kind
      case ServerErrorEvent => serverError
      case RequestCompletedEvent => requestCompleted
      case ServerTaskCountChangedEvent => serverTaskCountChanged
    }

    function Replace(kind: EventKind, handlers: seq<HandlerId>): (r: Subscribers)
      ensures r.Of(kind) == handlers
      ensures forall k :: k != kind ==> r.Of(k) == Of(k)
    {
      match kind
      case ServerErrorEvent => this.(serverError := handlers)
      case RequestCompletedEvent => this.(requestCompleted := handlers)
      case ServerTaskCountChangedEvent => this.(serverTaskCountChanged := handlers)
    }
  }

  /** The position of the last occurrence of `h`, or -1. */
  function LastIndexOf(handlers: seq<HandlerId>, h: HandlerId): (i: int)
    ensures -1 <= i < |handlers|
    ensures i >= 0 ==> handlers[i] == h && h !in handlers[i + 1..]
    ensures i < 0 ==> h !in handlers
    decreases |handlers|
  {
    if handlers == [] then -1
    else if handlers[|handlers| - 1] == h then |handlers| - 1
    else LastIndexOf(handlers[..|handlers| - 1], h)
  }

  /** `list -= h`, as `Delegate.Remove` does it: the last occurrence of `h`
    * goes, and a handler that is not registered changes nothing. */
  function RemoveHandler(handlers: seq<HandlerId>, h: HandlerId): (r: seq<HandlerId>)
    ensures h !in handlers ==> r == handlers
    ensures h in handlers ==> |r| == |handlers| - 1 && multiset(r) == multiset(handlers) - multiset{h}
    ensures h in handlers ==>
      exists i :: 0 <= i < |handlers| && handlers[i] == h && h !in handlers[i + 1..] && r == handlers[..i] + handlers[i + 1..]
  {
    var i := LastIndexOf(handlers, h);
    if i < 0 then handlers
    else
      assert handlers == handlers[..i] + [handlers[i]] + handlers[i + 1..];
      handlers[..i] + handlers[i + 1..]
  }

  // ---------------------------------------------------------------

  /** The ids of the tasks in a given phase. */
  ghost function InPhase(tasks: map<TaskId, Phase>, phase: Phase): set<TaskId> {
    set id | id in tasks && tasks[id] == phase
  }

  function NonNegative(n: int): nat {
    if n > 0 then n else 0
  }

  class HttpServer {
    var state: HttpServerState
    var settings: ServerSettings
    const endPoint: EndPoint
    const listenerUrl: string
    var onRequest: Option<HandlerId>
    var subscribers: Subscribers

    /** `_totalServerTasks`. */
    var totalServerTasks: int
    /** The count of `_shutdownEvent`; `None` while it is `null`. */
    var shutdownEvent: Option<nat>
    /** Whether `_shutdownCompletionSource` has been completed. */
    var shutdownRaised: bool
    /** A `Stop` call is blocked in `_shutdownEvent.Wait`. */
    var stopWaiting: bool
    /** The live `AcceptRequest` invocations; ids are never reused. */
    var tasks: map<TaskId, Phase>
    var nextTaskId: TaskId

    // What the server hands to its event subscribers.
    var completedRequests: seq<RequestCompletedEventArgs>
    var taskCountEvents: seq<int>
    var serverErrors: seq<Exception>

    /** How far the count is from the number of live tasks: one unit for each
      * task that left through the catch path, plus a negative minimum at Start. */
    ghost var drift: int
    /** The connections a task has observed so far: accepts that completed
      * and were admitted, or that completed alongside shutdown and were
      * dropped.  An accept abandoned at line 134 is not observed. */
    ghost var accepted: nat
    /** The delivered connections discarded at line 134 because shutdown had
      * also completed: never processed, closed or reported. */
    ghost var dropped: nat

    ghost predicate Valid()
      reads this
    {
      && (forall id :: id in tasks ==> id < nextTaskId)
      && (stopWaiting ==> state == Running && shutdownRaised)
      && (state != Running ==> shutdownEvent.None? && tasks == map[])
      && (state == Running ==>
            && shutdownEvent.Some?
            // Start's own unit is held until Stop releases it.
            && shutdownEvent.value == |tasks| + (if shutdownRaised then 0 else 1)
            && totalServerTasks == |tasks| + drift
            && (settings.minServerTasks <= settings.maxServerTasks ==> totalServerTasks <= settings.maxServerTasks)
            && (!shutdownRaised ==> settings.minServerTasks <= totalServerTasks))
      // Every observed connection is completed once, still being processed,
      // or was dropped when shutdown won the race.
      && accepted == |completedRequests| + |InPhase(tasks, Processing)| + dropped
    }

    constructor (config: HttpServerConfiguration, processorCount: nat)
      requires Construct(Some(config), processorCount).Ok?
      ensures Valid()
      ensures var c := Construct(Some(config), processorCount).value;
        endPoint == c.endPoint && settings == c.settings && listenerUrl == c.listenerUrl
      ensures state == Stopped && totalServerTasks == 0 && tasks == map[] && !shutdownRaised
      ensures onRequest.None? && subscribers == Subscribers([], [], [])
      ensures completedRequests == [] && taskCountEvents == [] && serverErrors == []
      ensures drift == 0 && accepted == 0 && dropped == 0
    {
      var c := Construct(Some(config), processorCount).value;
      state := Stopped;
      endPoint := c.endPoint;
      settings := c.settings;
      listenerUrl := c.listenerUrl;
      onRequest := None;
      subscribers := Subscribers([], [], []);
      totalServerTasks := 0;
      shutdownEvent := None;
      shutdownRaised := false;
      stopWaiting := false;
      tasks := map[];
      nextTaskId := 0;
      completedRequests := [];
      taskCountEvents := [];
      serverErrors := [];
      drift := 0;
      accepted := 0;
      dropped := 0;
    }

    function EnsureHttpServerState(required: HttpServerState): (r: Outcome<LifecycleError>)
      reads this
      ensures r.Pass? <==> state == required
      ensures r.Fail? ==> r.error == WrongState(state)
    {
      if state != required then Fail(WrongState(state)) else Pass
    }

    /** Disposed is terminal: no guarded operation accepts it. */
    lemma DisposedIsTerminal()
      requires state == Disposed
      ensures EnsureHttpServerState(Stopped).Fail? && EnsureHttpServerState(Running).Fail?
    {
    }

    /** The countdown is zero exactly when Stop has released Start's unit and
      * every posted task has exited; the count is then just the drift. */
    lemma CountdownDrained()
      requires Valid() && state == Running
      ensures shutdownEvent == Some(0) <==> shutdownRaised && tasks == map[]
      ensures shutdownEvent == Some(0) ==> totalServerTasks == drift && accepted == |completedRequests| + dropped
    {
      if shutdownEvent == Some(0) {
        assert tasks.Keys == {};
        assert InPhase(tasks, Processing) == {};
      }
    }

    // -------------------------------------------------------------
    // Lifecycle

    /** `PostAcceptRequestToIOCP`: one more live task, one more countdown unit. */
    method PostAcceptRequest()
      requires shutdownEvent.Some?
      requires forall id :: id in tasks ==> id < nextTaskId
      modifies this`tasks, this`nextTaskId, this`shutdownEvent
      ensures old(nextTaskId) !in old(tasks)
      ensures tasks == old(tasks)[old(nextTaskId) := Posted] && nextTaskId == old(nextTaskId) + 1
      ensures |tasks| == |old(tasks)| + 1
      ensures InPhase(tasks, Processing) == InPhase(old(tasks), Processing)
      ensures shutdownEvent == Some(old(shutdownEvent).value + 1)
      ensures forall id :: id in tasks ==> id < nextTaskId
    {
      assert nextTaskId !in tasks;
      tasks := tasks[nextTaskId := Posted];
      assert InPhase(tasks, Processing) == InPhase(old(tasks), Processing);
      nextTaskId := nextTaskId + 1;
      shutdownEvent := Some(shutdownEvent.value + 1);
    }

    /** Stopped -> Running with the count at the minimum, that many posted
      * tasks, and a countdown of one more than that. */
    method Start() returns (r: Outcome<LifecycleError>)
      requires Valid()
      modifies this`state, this`totalServerTasks, this`shutdownEvent, this`shutdownRaised
      modifies this`tasks, this`nextTaskId, this`drift
      ensures Valid()
      ensures r == old(EnsureHttpServerState(Stopped))
      ensures r.Fail? ==> unchanged(this)
      ensures r.Pass? ==>
        && state == Running
        && totalServerTasks == settings.minServerTasks
        && |tasks| == NonNegative(settings.minServerTasks)
        && (forall id :: id in tasks ==> tasks[id] == Posted)
        && shutdownEvent == Some(1 + |tasks|)
        && !shutdownRaised
        && drift == settings.minServerTasks - NonNegative(settings.minServerTasks)
    {
      r := EnsureHttpServerState(Stopped);
      if r.Fail? {
        return;
      }
      shutdownEvent := Some(1);
      shutdownRaised := false;
      totalServerTasks := settings.minServerTasks;
      var i := 0;
      while i < settings.minServerTasks
        invariant 0 <= i <= NonNegative(settings.minServerTasks)
        invariant |tasks| == i
        invariant forall id :: id in tasks ==> id < nextTaskId && tasks[id] == Posted
        invariant shutdownEvent == Some(1 + i)
        invariant InPhase(tasks, Processing) == {}
        invariant state == old(state) && !shutdownRaised && totalServerTasks == settings.minServerTasks
      {
        PostAcceptRequest();
        i := i + 1;
      }
      drift := totalServerTasks - |tasks|;
      state := Running;
    }

    /** The part of `Stop` before its wait: complete the shutdown source and
      * release Start's countdown unit.  A second Stop, after a timeout, fails
      * in `SetResult` and changes nothing. */
    method Stop() returns (r: Outcome<LifecycleError>)
      requires Valid()
      modifies this`shutdownRaised, this`shutdownEvent, this`stopWaiting
      ensures Valid()
      ensures old(state) != Running ==> r == Fail(WrongState(old(state)))
      ensures old(state) == Running && old(shutdownRaised) ==> r == Fail(ShutdownAlreadySignalled)
      ensures r.Pass? <==> old(state) == Running && !old(shutdownRaised)
      ensures r.Fail? ==> unchanged(this)
      ensures r.Pass? ==> shutdownRaised && stopWaiting && shutdownEvent == Some(|tasks|)
    {
      r := EnsureHttpServerState(Running);
      if r.Fail? {
        return;
      }
      if shutdownRaised {
        r := Fail(ShutdownAlreadySignalled);
        return;
      }
      shutdownRaised := true;
      shutdownEvent := Some(shutdownEvent.value - 1);
      stopWaiting := true;
    }

    /** The end of `Stop`'s wait.  A timeout below -1 milliseconds is refused
      * by `CountdownEvent.Wait` before it waits at all.  Otherwise the wait ends
      * when the countdown reaches zero or when the timeout elapses, whichever
      * the environment lets happen first; a timeout of -1 is infinite, so that
      * wait ends only once drained.  Drained, the server is Stopped; otherwise
      * Stop throws and the server stays Running. */
    method FinishStop() returns (r: Outcome<LifecycleError>)
      requires Valid() && stopWaiting
      requires settings.shutdownTimeoutMilli == -1 ==> shutdownEvent == Some(0)
      modifies this`state, this`shutdownEvent, this`stopWaiting
      ensures Valid() && !stopWaiting
      ensures settings.shutdownTimeoutMilli < -1 ==> r == Fail(InvalidWaitTimeout)
      ensures settings.shutdownTimeoutMilli == -1 ==> r.Pass?
      ensures r.Pass? <==> settings.shutdownTimeoutMilli >= -1 && old(shutdownEvent) == Some(0)
      ensures r.Pass? <==> settings.shutdownTimeoutMilli >= -1 && old(tasks) == map[]
      ensures r.Pass? ==>
        && state == Stopped && shutdownEvent.None?
        && totalServerTasks == drift
        && accepted == |completedRequests| + dropped
      ensures r.Fail? ==> state == Running && shutdownEvent == old(shutdownEvent)
      ensures r.Fail? && settings.shutdownTimeoutMilli >= -1 ==> r == Fail(ShutdownTimeout)
    {
      CountdownDrained();
      stopWaiting := false;
      if settings.shutdownTimeoutMilli < -1 {
        r := Fail(InvalidWaitTimeout);
        return;
      }
      if shutdownEvent.value != 0 {
        r := Fail(ShutdownTimeout);
        return;
      }
      shutdownEvent := None;
      state := Stopped;
      r := Pass;
    }

    /** Stopped -> Disposed. */
    method Dispose() returns (r: Outcome<LifecycleError>)
      requires Valid()
      modifies this`state
      ensures Valid()
      ensures r == old(EnsureHttpServerState(Stopped))
      ensures state == if r.Pass? then Disposed else old(state)
    {
      r := EnsureHttpServerState(Stopped);
      if r.Pass? {
        state := Disposed;
      }
    }

    // -------------------------------------------------------------
    // Guarded configuration

    /** Any of the property setters. */
    method Set(change: SettingChange) returns (r: Outcome<LifecycleError>)
      requires Valid()
      modifies this`settings
      ensures Valid()
      ensures r == old(EnsureHttpServerState(Stopped))
      ensures settings == if r.Pass? then ApplySetting(old(settings), change) else old(settings)
    {
      r := EnsureHttpServerState(Stopped);
      if r.Pass? {
        settings := ApplySetting(settings, change);
      }
    }

    /** The `OnRequest` setter; `None` stores `null`. */
    method SetOnRequest(handler: Option<HandlerId>) returns (r: Outcome<LifecycleError>)
      requires Valid()
      modifies this`onRequest
      ensures Valid()
      ensures r == old(EnsureHttpServerState(Stopped))
      ensures onRequest == if r.Pass? then handler else old(onRequest)
    {
      r := EnsureHttpServerState(Stopped);
      if r.Pass? {
        onRequest := handler;
      }
    }

    /** The `add` accessor of an event: the handler joins the end of the list. */
    method Subscribe(kind: EventKind, handler: HandlerId) returns (r: Outcome<LifecycleError>)
      requires Valid()
      modifies this`subscribers
      ensures Valid()
      ensures r == old(EnsureHttpServerState(Stopped))
      ensures subscribers == if r.Pass? then old(subscribers).Replace(kind, old(subscribers).Of(kind) + [handler])
                             else old(subscribers)
    {
      r := EnsureHttpServerState(Stopped);
      if r.Pass? {
        subscribers := subscribers.Replace(kind, subscribers.Of(kind) + [handler]);
      }
    }

    /** The `remove` accessor of an event: the last registration of the handler goes. */
    method Unsubscribe(kind: EventKind, handler: HandlerId) returns (r: Outcome<LifecycleError>)
      requires Valid()
      modifies this`subscribers
      ensures Valid()
      ensures r == old(EnsureHttpServerState(Stopped))
      ensures subscribers == if r.Pass? then old(subscribers).Replace(kind, RemoveHandler(old(subscribers).Of(kind), handler))
                             else old(subscribers)
    {
      r := EnsureHttpServerState(Stopped);
      if r.Pass? {
        subscribers := subscribers.Replace(kind, RemoveHandler(subscribers.Of(kind), handler));
      }
    }

    // -------------------------------------------------------------
    // Environment steps of a live AcceptRequest

    /** A posted task resumes after shutdown was raised: the count goes down,
      * no replacement is posted, and the task's countdown unit is released.
      * When the accept had also delivered a connection (`contextArrived`),
      * that connection is dropped: nothing processes, closes or reports it. */
    method ShutdownWins(id: TaskId, contextArrived: bool)
      requires Valid() && id in tasks && tasks[id] == Posted && shutdownRaised
      modifies this`tasks, this`totalServerTasks, this`shutdownEvent, this`accepted, this`dropped
      ensures Valid()
      ensures tasks == old(tasks) - {id}
      ensures totalServerTasks == old(totalServerTasks) - 1
      ensures shutdownEvent == Some(old(shutdownEvent).value - 1)
      ensures accepted == old(accepted) + (if contextArrived then 1 else 0)
      ensures dropped == old(dropped) + (if contextArrived then 1 else 0)
    {
      RemoveTask(id);
      totalServerTasks := totalServerTasks - 1;
      shutdownEvent := Some(shutdownEvent.value - 1);
      if contextArrived {
        accepted := accepted + 1;
        dropped := dropped + 1;
      }
    }

    /** The admission region (lines 146-161): below the maximum the count goes
      * up, the new count is reported, and a new accept is posted. */
    method Admit() returns (newAccept: bool)
      requires shutdownEvent.Some?
      requires forall id :: id in tasks ==> id < nextTaskId
      modifies this`totalServerTasks, this`taskCountEvents, this`tasks, this`nextTaskId, this`shutdownEvent
      ensures newAccept == (old(totalServerTasks) < settings.maxServerTasks)
      ensures totalServerTasks == old(totalServerTasks) + (if newAccept then 1 else 0)
      ensures taskCountEvents == old(taskCountEvents) + (if newAccept then [totalServerTasks] else [])
      ensures tasks == if newAccept then old(tasks)[old(nextTaskId) := Posted] else old(tasks)
      ensures |tasks| == |old(tasks)| + (if newAccept then 1 else 0)
      ensures InPhase(tasks, Processing) == InPhase(old(tasks), Processing)
      ensures shutdownEvent == Some(old(shutdownEvent).value + (if newAccept then 1 else 0))
      ensures forall id :: id in tasks ==> id < nextTaskId
    {
      newAccept := false;
      if totalServerTasks < settings.maxServerTasks {
        totalServerTasks := totalServerTasks + 1;
        taskCountEvents := taskCountEvents + [totalServerTasks];
        newAccept := true;
      }
      if newAccept {
        PostAcceptRequest();
      }
    }

    /** A posted task's `Task.WhenAny` returns before shutdown was raised, so
      * the check at line 134 lets it through.  Whether its accept completed or
      * faulted is decided by the next step. */
    method PassCheck(id: TaskId)
      requires Valid() && id in tasks && tasks[id] == Posted && !shutdownRaised
      modifies this`tasks
      ensures Valid()
      ensures tasks == old(tasks)[id := Checked]
    {
      assert InPhase(tasks[id := Checked], Processing) == InPhase(tasks, Processing);
      tasks := tasks[id := Checked];
    }

    /** A checked task's accept delivered a connection: the admission region
      * runs and the task goes on to process it.  The check at line 134 was
      * made before the lock is taken, so the step is possible after shutdown
      * was raised too, but only for a task that passed the check before. */
    method AcceptCompletes(id: TaskId) returns (newAccept: bool)
      requires Valid() && id in tasks && tasks[id] == Checked
      modifies this`totalServerTasks, this`taskCountEvents, this`tasks, this`nextTaskId, this`shutdownEvent, this`accepted
      ensures Valid()
      ensures newAccept == (old(totalServerTasks) < settings.maxServerTasks)
      ensures totalServerTasks == old(totalServerTasks) + (if newAccept then 1 else 0)
      ensures taskCountEvents == old(taskCountEvents) + (if newAccept then [totalServerTasks] else [])
      ensures tasks == if newAccept then old(tasks)[id := Processing][old(nextTaskId) := Posted]
                       else old(tasks)[id := Processing]
      ensures shutdownEvent == Some(old(shutdownEvent).value + (if newAccept then 1 else 0))
      ensures accepted == old(accepted) + 1
    {
      assert InPhase(tasks[id := Processing], Processing) == InPhase(tasks, Processing) + {id};
      tasks := tasks[id := Processing];
      accepted := accepted + 1;
      newAccept := Admit();
    }

    /** The catch and finally paths (lines 184-191): the error is reported and
      * the countdown unit released, but the count is left alone. */
    method FaultExit(id: TaskId, e: Exception)
      requires id in tasks && tasks[id] != Processing
      requires shutdownEvent.Some? && shutdownEvent.value >= 1
      modifies this`tasks, this`serverErrors, this`shutdownEvent, this`drift
      ensures tasks == old(tasks) - {id}
      ensures |tasks| == |old(tasks)| - 1
      ensures InPhase(tasks, Processing) == InPhase(old(tasks), Processing)
      ensures serverErrors == old(serverErrors) + [e]
      ensures shutdownEvent == Some(old(shutdownEvent).value - 1)
      ensures drift == old(drift) + 1
    {
      RemoveTask(id);
      serverErrors := serverErrors + [e];
      shutdownEvent := Some(shutdownEvent.value - 1);
      drift := drift + 1;
    }

    /** `GetContextAsync` throws at once (line 130): the task leaves through
      * the catch path without reaching the admission region. */
    method TaskFaults(id: TaskId, e: Exception)
      requires Valid() && id in tasks && tasks[id] == Posted
      modifies this`tasks, this`serverErrors, this`shutdownEvent, this`drift
      ensures Valid()
      ensures tasks == old(tasks) - {id}
      ensures totalServerTasks == old(totalServerTasks)
      ensures serverErrors == old(serverErrors) + [e]
      ensures shutdownEvent == Some(old(shutdownEvent).value - 1)
    {
      FaultExit(id, e);
    }

    /** A checked task's accept faulted: the admission region runs, then
      * reading the result throws and the task leaves through the catch path.
      * The count keeps the unit the admission may have added.  As for
      * `AcceptCompletes`, the step is possible after shutdown was raised, but
      * only for a task that passed line 134 before. */
    method AcceptFaults(id: TaskId, e: Exception) returns (newAccept: bool)
      requires Valid() && id in tasks && tasks[id] == Checked
      modifies this`totalServerTasks, this`taskCountEvents, this`tasks, this`nextTaskId, this`shutdownEvent
      modifies this`serverErrors, this`drift
      ensures Valid()
      ensures newAccept == (old(totalServerTasks) < settings.maxServerTasks)
      ensures totalServerTasks == old(totalServerTasks) + (if newAccept then 1 else 0)
      ensures taskCountEvents == old(taskCountEvents) + (if newAccept then [totalServerTasks] else [])
      ensures tasks == if newAccept then (old(tasks) - {id})[old(nextTaskId) := Posted] else old(tasks) - {id}
      ensures serverErrors == old(serverErrors) + [e]
      ensures shutdownEvent == Some(old(shutdownEvent).value + (if newAccept then 1 else 0) - 1)
      ensures drift == old(drift) + 1
    {
      ghost var before := tasks;
      ghost var processing := InPhase(tasks, Processing);
      assert id < nextTaskId;
      newAccept := Admit();
      assert id in tasks && tasks[id] == Checked;
      FaultExit(id, e);
      assert newAccept ==> tasks == (before - {id})[old(nextTaskId) := Posted];
      assert |tasks| == |before| + (if newAccept then 1 else 0) - 1;
      assert InPhase(tasks, Processing) == processing;
    }

    /** The region after processing (lines 167-182): if the count would drop
      * below the minimum it is kept and a replacement accept is posted,
      * otherwise it goes down and the new count is reported. */
    method Release() returns (newAccept: bool)
      requires shutdownEvent.Some?
      requires forall id :: id in tasks ==> id < nextTaskId
      modifies this`totalServerTasks, this`taskCountEvents, this`tasks, this`nextTaskId, this`shutdownEvent
      ensures newAccept == (old(totalServerTasks) - 1 < settings.minServerTasks)
      ensures totalServerTasks == old(totalServerTasks) - (if newAccept then 0 else 1)
      ensures taskCountEvents == old(taskCountEvents) + (if newAccept then [] else [totalServerTasks])
      ensures tasks == if newAccept then old(tasks)[old(nextTaskId) := Posted] else old(tasks)
      ensures |tasks| == |old(tasks)| + (if newAccept then 1 else 0)
      ensures InPhase(tasks, Processing) == InPhase(old(tasks), Processing)
      ensures shutdownEvent == Some(old(shutdownEvent).value + (if newAccept then 1 else 0))
      ensures forall id :: id in tasks ==> id < nextTaskId
    {
      newAccept := false;
      if totalServerTasks - 1 < settings.minServerTasks {
        newAccept := true;
      } else {
        totalServerTasks := totalServerTasks - 1;
        taskCountEvents := taskCountEvents + [totalServerTasks];
      }
      if newAccept {
        PostAcceptRequest();
      }
    }

    /** A processing task finishes: `ProcessRequest` finalises the response
      * and reports exactly one completion, then the region after processing
      * runs and the task's countdown unit is released. */
    method ProcessingFinishes(id: TaskId, outcome: HandlerOutcome, resetSucceeds: bool)
      returns (f: Finalization, newAccept: bool)
      requires Valid() && id in tasks && tasks[id] == Processing
      modifies this`completedRequests, this`totalServerTasks, this`taskCountEvents
      modifies this`tasks, this`nextTaskId, this`shutdownEvent
      ensures Valid()
      ensures f == ProcessRequest(onRequest.Some?, outcome, resetSucceeds)
      ensures completedRequests == old(completedRequests) + [f.args]
      ensures newAccept == (old(totalServerTasks) - 1 < settings.minServerTasks)
      ensures totalServerTasks == old(totalServerTasks) - (if newAccept then 0 else 1)
      ensures taskCountEvents == old(taskCountEvents) + (if newAccept then [] else [totalServerTasks])
      ensures tasks == if newAccept then (old(tasks) - {id})[old(nextTaskId) := Posted] else old(tasks) - {id}
      ensures shutdownEvent == Some(old(shutdownEvent).value + (if newAccept then 1 else 0) - 1)
    {
      f := CompleteRequest(outcome, resetSucceeds);
      RemoveTask(id);
      newAccept := Release();
      shutdownEvent := Some(shutdownEvent.value - 1);
    }

    /** `ProcessRequest` and its one call of `OnRequestCompleted`. */
    method CompleteRequest(outcome: HandlerOutcome, resetSucceeds: bool) returns (f: Finalization)
      modifies this`completedRequests
      ensures f == ProcessRequest(onRequest.Some?, outcome, resetSucceeds)
      ensures completedRequests == old(completedRequests) + [f.args]
    {
      f := ProcessRequest(onRequest.Some?, outcome, resetSucceeds);
      completedRequests := completedRequests + [f.args];
    }

    /** A live task leaves the map. */
    method RemoveTask(id: TaskId)
      requires id in tasks
      modifies this`tasks
      ensures tasks == old(tasks) - {id}
      ensures |tasks| == |old(tasks)| - 1
      ensures old(tasks)[id] != Processing ==> InPhase(tasks, Processing) == InPhase(old(tasks), Processing)
      ensures old(tasks)[id] == Processing ==> |InPhase(tasks, Processing)| == |InPhase(old(tasks), Processing)| - 1
      ensures forall k :: k in tasks ==> k in old(tasks)
    {
      assert (tasks - {id}).Keys == tasks.Keys - {id};
      assert tasks[id] != Processing ==> InPhase(tasks - {id}, Processing) == InPhase(tasks, Processing);
      assert tasks[id] == Processing ==> InPhase(tasks - {id}, Processing) == InPhase(tasks, Processing) - {id};
      tasks := tasks - {id};
    }
  }
}
