/** The record handed to `RequestCompleted` subscribers once per processed
  * request (Kalinda.Server/RequestCompletedEventArgs.cs). */
module RequestEvents {
  import opened Wrappers

  /** The exceptions the server tells apart: a fault of the listener's
    * connection, and anything else a request handler may throw. */
  datatype Exception =
    | HttpListenerException(errorCode: int)
    | OtherException(typeName: string, message: string)

  /** `Url` and `RequestDurationTickCount` are plain settable properties;
    * `Success` is not stored but derived from `Exception`. */
  datatype RequestCompletedEventArgs = RequestCompletedEventArgs(
    url: Option<string>,
    requestDurationTickCount: int,
    exception: Option<Exception>)
  {
    predicate Success() {
      exception.None?
    }

    function WithUrl(u: Option<string>): (r: RequestCompletedEventArgs)
      ensures r.url == u
      ensures r.requestDurationTickCount == requestDurationTickCount && r.exception == exception
      ensures r.Success() == Success()
    {
      this.(url := u)
    }

    function WithRequestDurationTickCount(ticks: int): (r: RequestCompletedEventArgs)
      ensures r.requestDurationTickCount == ticks
      ensures r.url == url && r.exception == exception
      ensures r.Success() == Success()
    {
      this.(requestDurationTickCount := ticks)
    }

    function WithException(e: Option<Exception>): (r: RequestCompletedEventArgs)
      ensures r.exception == e
      ensures r.url == url && r.requestDurationTickCount == requestDurationTickCount
      ensures r.Success() <==> e.None?
    {
      this.(exception := e)
    }
  }

  /** `new RequestCompletedEventArgs()`: every property at its default. */
  function NewRequestCompletedEventArgs(): (r: RequestCompletedEventArgs)
    ensures r.url.None? && r.requestDurationTickCount == 0 && r.exception.None?
    ensures r.Success()
  {
    RequestCompletedEventArgs(None, 0, None)
  }

  /** `Success` follows `Exception` in both directions, whatever was set before. */
  lemma SuccessFollowsException(args: RequestCompletedEventArgs, e: Exception)
    ensures !args.WithException(Some(e)).Success()
    ensures args.WithException(Some(e)).WithException(None).Success()
    ensures args.Success() ==> args.WithException(Some(e)).WithException(None) == args
  {
  }
}
