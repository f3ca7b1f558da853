/**
 * Everything the handler needs to know about one proxy method call, the
 * values such a call produces, and the branching of a business call after its
 * request has been sent.
 */
module Invocation {
  import opened Wrappers
  import opened Locators
  import opened Exceptions

  /** The precomputed classification of a proxy method. */
  datatype MethodType =
    | EqualsMethod
    | IsIdenticalMethod
    | HashCodeMethod
    | ToStringMethod
    | GetPrimaryKeyMethod
    | GetHandleMethod
    | GetHomeHandleMethod
    | BusinessMethod

  /** The declared return type of the invoked method, as far as the handler looks at it. */
  datatype ReturnShape = ReturnsFuture | ReturnsVoid | ReturnsOther

  /** A method descriptor: its type tag, return shape, client-async flag and declared exception types. */
  datatype MethodInfo = MethodInfo(
    methodType: MethodType,
    returnShape: ReturnShape,
    clientAsync: bool,
    exceptionTypes: seq<ExClass>)

  /** The future an invocation context hands out for its eventual response. */
  datatype FutureToken = FutureToken(id: nat)

  /** What a proxy call can return. */
  datatype Value =
    | NullValue
    | BoolValue(b: bool)
    | IntValue(i: int)
    | StringValue(s: string)
    | PrimaryKeyOf(entity: Locator)
    | HandleFor(obj: Locator)
    | HomeHandleFor(home: Locator)
    | FutureOf(future: FutureToken)
    | RemoteValue(id: nat)

  /** The outcome of a proxy call: a return value or a thrown exception. */
  datatype CallResult = Returned(value: Value) | Raised(exception: Throwable)

  /**
   * What waiting for the response yields: a result, the sentinel that tells the
   * caller to proceed asynchronously, or a failure.
   */
  datatype Response = Completed(value: Value) | ProceedAsync | Threw(exception: Throwable)

  /**
   * The behaviour of the invocation context for one call: whether sending the
   * request fails, what waiting for the response yields, and the future it
   * hands out.
   */
  datatype ContextScript = ContextScript(sendFailure: Option<Throwable>, response: Response, future: FutureToken)

  /**
   * The observable effect of the post-send branch: what the call returns, how
   * often it waited, the final blocking-caller flag of the context, whether the
   * result was discarded, and the future stored for the caller to retrieve.
   */
  datatype PostSend = PostSend(
    result: CallResult,
    awaits: nat,
    blockingCaller: bool,
    discardResult: bool,
    futureResult: Option<FutureToken>)

  /** A sync handler waits for the response unless the method is client-async. */
  predicate WaitsForResponse(async: bool, info: MethodInfo)
  {
    !async && !info.clientAsync
  }

  /** The asynchronous tail of a business call: it dispatches on the return shape without waiting. */
  function AsyncReturn(info: MethodInfo, future: FutureToken, awaits: nat): (o: PostSend)
    ensures o.awaits == awaits && !o.blockingCaller
    ensures o.discardResult <==> info.returnShape == ReturnsVoid
    ensures o.futureResult.Some? <==> info.returnShape == ReturnsOther
    ensures o.futureResult.Some? ==> o.futureResult == Some(future)
    // only a Future-returning method hands the future back; the others return null
    ensures o.result == Returned(if info.returnShape == ReturnsFuture then FutureOf(future) else NullValue)
  {
    match info.returnShape
    case ReturnsFuture => PostSend(Returned(FutureOf(future)), awaits, false, false, None)
    case ReturnsVoid => PostSend(Returned(NullValue), awaits, false, true, None)
    case ReturnsOther => PostSend(Returned(NullValue), awaits, false, false, Some(future))
  }

  /** The post-send branch of a business call, with failures translated for the method's signature. */
  function AfterSend(async: bool, info: MethodInfo, script: ContextScript): (o: PostSend)
    // at most one wait, and one exactly when the request went out on the synchronous path
    ensures o.awaits <= 1
    ensures o.awaits == 1 <==> script.sendFailure.None? && WaitsForResponse(async, info)
    // a failure the caller sees is one its method signature allows
    ensures o.result.Raised? ==> IsUnchecked(o.result.exception.cls) || Declares(info.exceptionTypes, o.result.exception.cls)
    // the caller is still marked as blocked exactly when the call ended without going asynchronous
    ensures o.blockingCaller <==>
      script.sendFailure.Some? || (WaitsForResponse(async, info) && !script.response.ProceedAsync?)
    // a completed synchronous call returns the response's value unchanged
    ensures script.sendFailure.None? && WaitsForResponse(async, info) && script.response.Completed?
      ==> o.result == Returned(script.response.value)
    // a failed send, or a failure met while waiting, is raised translated for the signature
    ensures script.sendFailure.Some?
      ==> o.result == Raised(Translated(script.sendFailure.value, info.exceptionTypes))
    ensures script.sendFailure.None? && WaitsForResponse(async, info) && script.response.Threw?
      ==> o.result == Raised(Translated(script.response.exception, info.exceptionTypes))
    // a call that goes asynchronous ends as the return-shape dispatch says
    ensures !o.blockingCaller ==> o == AsyncReturn(info, script.future, o.awaits)
    // a call that ends without going asynchronous neither discards its result nor stores a future
    ensures o.blockingCaller ==> !o.discardResult && o.futureResult.None?
  {
    if script.sendFailure.Some? then
      PostSend(Raised(Translated(script.sendFailure.value, info.exceptionTypes)), 0, true, false, None)
    else if WaitsForResponse(async, info) then
      match script.response
      case Completed(v) => PostSend(Returned(v), 1, true, false, None)
      case Threw(e) => PostSend(Raised(Translated(e, info.exceptionTypes)), 1, true, false, None)
      case ProceedAsync => AsyncReturn(info, script.future, 1)
    else
      AsyncReturn(info, script.future, 0)
  }

  /**
   * The PROCEED_ASYNC sentinel does not make a synchronous call wait again: it
   * ends exactly as the same call on an asynchronous handler, except for the
   * one wait already done.
   */
  lemma ProceedAsyncActsAsAsync(info: MethodInfo, script: ContextScript)
    requires script.sendFailure.None? && !info.clientAsync && script.response.ProceedAsync?
    ensures AfterSend(false, info, script) == AfterSend(true, info, script).(awaits := 1)
  {
  }

  /** On the asynchronous path the response is never consulted. */
  lemma AsyncIgnoresResponse(async: bool, info: MethodInfo, script: ContextScript, response: Response)
    requires script.sendFailure.None? && !WaitsForResponse(async, info)
    ensures AfterSend(async, info, script) == AfterSend(async, info, script.(response := response))
  {
  }
}
