/** How `ProcessRequest` (Kalinda.Server/HttpServer.cs) finalises one
  * accepted request, as a function of what the request handler did. */
module RequestProcessing {
  import opened Wrappers
  import opened RequestEvents

  /** What the awaited handler did: returned (the request's URL and the
    * elapsed ticks are then recorded) or threw. */
  datatype HandlerOutcome =
    | Returned(url: string, durationTicks: int)
    | Threw(e: Exception)

  /** The attempt to turn the response into an empty 500: clear the headers,
    * set the content length to 0 and the status code to 500. */
  datatype ResponseReset = NotAttempted | Reset | ResetThrew

  /** How the response is finished: `Response.Close()` or `Response.Abort()`. */
  datatype Disposal = Close | Abort

  /** Everything `ProcessRequest` does to a request: the reset, the disposal,
    * and the one record passed to `OnRequestCompleted`. */
  datatype Finalization = Finalization(reset: ResponseReset, disposal: Disposal, args: RequestCompletedEventArgs)

  function IsListenerFault(e: Exception): bool {
    e.HttpListenerException?
  }

  /** `hasHandler` is whether `OnRequest` was set; `resetSucceeds` is whether
    * the three assignments of the reset would all complete.  Exceptions from
    * `Close`/`Abort` and from `RequestCompleted` subscribers are swallowed, so
    * they have no effect here. */
  function ProcessRequest(hasHandler: bool, outcome: HandlerOutcome, resetSucceeds: bool): (f: Finalization)
    // A handler that returns or is absent: closed, successful, nothing reset.
    ensures !(hasHandler && outcome.Threw?) ==> f.disposal == Close && f.reset == NotAttempted && f.args.Success()
    // The URL and duration are recorded only when a handler returned.
    ensures f.args.url.Some? <==> hasHandler && outcome.Returned?
    ensures hasHandler && outcome.Returned? ==>
      f.args.url == Some(outcome.url) && f.args.requestDurationTickCount == outcome.durationTicks
    ensures !(hasHandler && outcome.Returned?) ==> f.args.requestDurationTickCount == 0
    // A listener fault aborts, records no exception and so reports success.
    ensures hasHandler && outcome.Threw? && IsListenerFault(outcome.e) ==>
      f.disposal == Abort && f.reset == NotAttempted && f.args.exception.None? && f.args.Success()
    // Any other exception is recorded, the reset is tried, and only a failed reset aborts.
    ensures hasHandler && outcome.Threw? && !IsListenerFault(outcome.e) ==>
      && f.args.exception == Some(outcome.e)
      && f.reset == (if resetSucceeds then Reset else ResetThrew)
      && (f.disposal == Abort <==> !resetSucceeds)
  {
    var args := NewRequestCompletedEventArgs();
    if !hasHandler then
      Finalization(NotAttempted, Close, args)
    else
      match outcome
      case Returned(url, ticks) =>
        Finalization(NotAttempted, Close, args.WithRequestDurationTickCount(ticks).WithUrl(Some(url)))
      case Threw(e) =>
        if IsListenerFault(e) then
          Finalization(NotAttempted, Abort, args)
        else if resetSucceeds then
          Finalization(Reset, Close, args.WithException(Some(e)))
        else
          Finalization(ResetThrew, Abort, args.WithException(Some(e)))
  }

  /** The two summary rules: the response is aborted exactly on a listener
    * fault or a failed reset, and the record reports success exactly when the
    * handler did not throw a non-listener exception. */
  lemma ProcessRequestSummary(hasHandler: bool, outcome: HandlerOutcome, resetSucceeds: bool)
    ensures var f := ProcessRequest(hasHandler, outcome, resetSucceeds);
      && (f.disposal == Abort <==> hasHandler && outcome.Threw? && (IsListenerFault(outcome.e) || !resetSucceeds))
      && (f.args.Success() <==> !(hasHandler && outcome.Threw? && !IsListenerFault(outcome.e)))
      && (f.reset != NotAttempted <==> hasHandler && outcome.Threw? && !IsListenerFault(outcome.e))
  {
  }
}
