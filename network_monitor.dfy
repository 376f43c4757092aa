/** Sources/NYNetwork/NetworkMonitor.swift: classifying one completed exchange.

    The decision is a pure function of the exchange, the decoders and the caller's optional
    empty-success callback: `Classify` gives the ordered list of what the caller observes.
    `NetworkMonitor` performs the same steps one call at a time against a `Delivery`, which
    records each callback, notification and completion, and is proved to emit `Classify`. */
module Monitoring {
  import opened Foundation
  import opened Models
  import opened NYErrors
  import Helpers
  import opened Responses

  /** Wording the runtime supplies and the model leaves opaque. */
  datatype Texts = Texts(
    /** `LogManager.describe(NetworkMonitor.self, with: title)`. */
    describe: string -> string,
    /** `localizedDescription` of a thrown `NetworkHelper.Error`, seen as `Error`. */
    helperError: Helpers.HelperError -> string,
    /** `localizedDescription` of the error `decode` throws on a transport failure, seen as `Error`. */
    transportError: NYError<BlankModel> -> string,
    /** The description `fire` reports for a thrown error. */
    fired: NYError<CRExternalError> -> string)

  /** What one call is parameterised by: the decoders of `Model` and `ErrorModel`, and the runtime texts. */
  datatype Environment<M, E> = Environment(model: Helpers.Decoder<M>, errorModel: Helpers.Decoder<E>, texts: Texts)

  /** One observable effect: the `onEmptySuccessResult` callback, the `iWonAuthError`
      notification, or `completion` with its result. */
  datatype Event<M, E> = EmptySuccess | AuthNotify | Complete(result: Result<M, NYError<E>>)

  /** The status code that signals an empty success. */
  const EmptySuccessStatus := 0
  /** The status code that triggers the `iWonAuthError` notification. */
  const UnauthorizedStatus := 401
  /** First status code handled as an error. */
  const FirstErrorStatus := 400
  /** Last status code whose error is reported with its own status. */
  const LastClientErrorStatus := 422
  /** Status reported for every error status above `LastClientErrorStatus`. */
  const ServerErrorStatus := 500
  /** Status reported when a success status carries an undecodable body. */
  const DefaultErrorStatus := 400

  const NoStatusCodeTitle := "Response without status code"
  const NoDataTitle := "Response data is nil"
  const DecodingFailureTitle := "Failure of «Decoding» a «Decrypted data» to common JSON body. "

  /** `appError(title)`: an unexpected error with no data whose text is the described title. */
  function AppError(texts: Texts, title: string): (e: NYError<CRExternalError>)
    ensures e.Unexpected? && e.data == None
    ensures e.LocalizedDescription() == texts.describe(title)
  {
    Unexpected(texts.describe(title), None)
  }

  /** `statusCodeFor(response:)`: the status code, or the "no status code" app error. */
  function StatusCodeFor(texts: Texts, response: DataResponse): (r: Result<int, NYError<CRExternalError>>)
    ensures r.Success? <==> response.response.Some?
    ensures r.Success? ==> r.value == response.response.value.statusCode
    ensures r.Failure? ==> r.error == AppError(texts, NoStatusCodeTitle)
  {
    match response.response
    case None => Failure(AppError(texts, NoStatusCodeTitle))
    case Some(head) => Success(head.statusCode)
  }

  /** `decode(_:with:)`: the body decoded as `Model`. Absent data, a transport failure and a
      decoder rejection each become an app error with no data. */
  function DecodeModel<M, E>(env: Environment<M, E>, data: Option<Data>, result: TransportResult): (r: Result<M, NYError<CRExternalError>>)
    ensures r.Success? <==> data.Some? && result.Transferred? && env.model(data.value).Success?
    ensures r.Success? ==> r.value == env.model(data.value).value
    ensures r.Failure? ==> r.error.Unexpected? && r.error.data == None
  {
    match data
    case None => Failure(AppError(env.texts, NoDataTitle))
    case Some(_) =>
      match result
      case Transferred =>
        (match Helpers.Decode(data, env.model)
         case Success(decoded) => Success(decoded)
         case Failure(e) => Failure(AppError(env.texts, DecodingFailureTitle + env.texts.helperError(e))))
      case TransportFailed(description) =>
        var thrown: NYError<BlankModel> := Unexpected(description, data);
        Failure(AppError(env.texts, DecodingFailureTitle + env.texts.transportError(thrown)))
  }

  /** What `internalError` completes with: a standard error with the given status when the body
      decodes as `ErrorModel`, otherwise an unexpected error carrying the body unchanged. */
  function InternalErrorResult<M, E>(env: Environment<M, E>, data: Option<Data>, statusCode: int := DefaultErrorStatus): (r: Result<M, NYError<E>>)
    ensures r.Failure?
    ensures r.error.Standard? <==> data.Some? && env.errorModel(data.value).Success?
    ensures r.error.Standard? ==> r.error.statusCode == statusCode && r.error.model == Some(env.errorModel(data.value).value)
    ensures !r.error.Standard? ==> r.error.Unexpected? && r.error.data == data
  {
    match Helpers.Decode(data, env.errorModel)
    case Success(model) => Failure(Standard(statusCode, Some(model)))
    case Failure(e) => Failure(Unexpected(env.texts.helperError(e), data))
  }

  /** What `externalError` completes with: as `InternalErrorResult`, but the status is always 500. */
  function ExternalErrorResult<M, E>(env: Environment<M, E>, data: Option<Data>): (r: Result<M, NYError<E>>)
    ensures r.Failure?
    ensures r.error.Standard? <==> data.Some? && env.errorModel(data.value).Success?
    ensures r.error.Standard? ==> r.error.statusCode == ServerErrorStatus && r.error.model == Some(env.errorModel(data.value).value)
    ensures !r.error.Standard? ==> r.error.Unexpected? && r.error.data == data
  {
    match Helpers.Decode(data, env.errorModel)
    case Success(model) => Failure(Standard(ServerErrorStatus, Some(model)))
    case Failure(e) => Failure(Unexpected(env.texts.helperError(e), data))
  }

  /** What `fire` completes with: an unexpected error with no data. */
  function FireResult<M, E>(env: Environment<M, E>, error: NYError<CRExternalError>): (r: Result<M, NYError<E>>)
    ensures r.Failure? && r.error.Unexpected? && r.error.data == None
  {
    Failure(Unexpected(env.texts.fired(error), None))
  }

  /** The effects of `inspectDecode`: with no body, only the empty-success callback (when given);
      otherwise one completion, a success when the model decodes and the error-model fallback otherwise. */
  function InspectDecodeEvents<M, E>(env: Environment<M, E>, monitor: Monitor, onEmptySuccessResult: bool): (events: seq<Event<M, E>>)
    ensures |events| <= 1
    ensures (|events| == 1 && events[0].Complete?) <==> monitor.DecryptedData().Some?
    ensures events == [] <==> monitor.DecryptedData().None? && !onEmptySuccessResult
  {
    if monitor.DecryptedData().None? then
      if onEmptySuccessResult then [EmptySuccess] else []
    else
      match DecodeModel(env, monitor.DecryptedData(), monitor.Result())
      case Success(model) => [Complete(Success(model))]
      case Failure(_) => [Complete(InternalErrorResult(env, monitor.DecryptedData()))]
  }

  /** The step `inspectStatusCode` ends with once it has a status code: one completion for an error
      status, reported with the status itself up to 422 and by `externalError` above it, and
      `inspectDecode` below 400. */
  function StatusBandEvents<M, E>(env: Environment<M, E>, monitor: Monitor, statusCode: int, onEmptySuccessResult: bool): (events: seq<Event<M, E>>)
    ensures |events| <= 1
    ensures statusCode >= FirstErrorStatus ==> |events| == 1 && events[0].Complete? && events[0].result.Failure?
  {
    if statusCode >= FirstErrorStatus then
      if statusCode <= LastClientErrorStatus then
        [Complete(InternalErrorResult(env, monitor.DecryptedData(), statusCode))]
      else
        [Complete(ExternalErrorResult(env, monitor.DecryptedData()))]
    else
      InspectDecodeEvents(env, monitor, onEmptySuccessResult)
  }

  /** The effects of `monitor` / `inspectStatusCode`, in order: at most two events, and a completion
      only ever as the last one. */
  function Classify<M, E>(env: Environment<M, E>, response: DataResponse, onEmptySuccessResult: bool): (events: seq<Event<M, E>>)
    ensures |events| <= 2
    ensures forall i :: 0 <= i < |events| && events[i].Complete? ==> i == |events| - 1
  {
    var monitor := Monitor(response);
    match StatusCodeFor(env.texts, monitor.response)
    case Failure(error) => [Complete(FireResult(env, error))]
    case Success(statusCode) =>
      (if statusCode == EmptySuccessStatus && onEmptySuccessResult then [EmptySuccess] else [])
      + (if statusCode == UnauthorizedStatus then [AuthNotify] else [])
      + StatusBandEvents(env, monitor, statusCode, onEmptySuccessResult)
  }

  /** The caller's side of one classification: the callbacks it passed in and the notification
      centre, recorded in the order they are invoked. */
  class Delivery<M, E> {
    var events: seq<Event<M, E>>

    constructor ()
      ensures events == []
    {
      events := [];
    }

    /** `completion(result)`. */
    method Completion(result: Result<M, NYError<E>>)
      modifies this
      ensures events == old(events) + [Complete(result)]
    {
      events := events + [Complete(result)];
    }

    /** `onEmptySuccessResult()`. */
    method OnEmptySuccessResult()
      modifies this
      ensures events == old(events) + [EmptySuccess]
    {
      events := events + [EmptySuccess];
    }

    /** `NotificationCenter.default.post(name: .iWonAuthError, object: nil)`. */
    method PostAuthError()
      modifies this
      ensures events == old(events) + [AuthNotify]
    {
      events := events + [AuthNotify];
    }
  }

  /** `NetworkMonitor`: each method follows the Swift method of the same name and is proved
      to deliver exactly what the specification functions above describe. Passing
      `onEmptySuccessResult == false` stands for a nil callback. */
  class NetworkMonitor {
    constructor ()
    {
    }

    method Monitor<M, E>(response: DataResponse, env: Environment<M, E>, delivery: Delivery<M, E>, onEmptySuccessResult: bool := false)
      modifies delivery
      ensures delivery.events == old(delivery.events) + Classify(env, response, onEmptySuccessResult)
    {
      var monitor := Responses.Monitor(response);
      InspectStatusCode(monitor, env, delivery, onEmptySuccessResult);
    }

    method InspectStatusCode<M, E>(monitor: Responses.Monitor, env: Environment<M, E>, delivery: Delivery<M, E>, onEmptySuccessResult: bool := false)
      modifies delivery
      ensures delivery.events == old(delivery.events) + Classify(env, monitor.response, onEmptySuccessResult)
    {
      match StatusCodeFor(env.texts, monitor.response)
      case Failure(error) =>
        Fire(error, env, delivery);
      case Success(statusCode) =>
        if statusCode == EmptySuccessStatus && onEmptySuccessResult {
          delivery.OnEmptySuccessResult();
        }
        if statusCode == UnauthorizedStatus {
          delivery.PostAuthError();
        }
        if statusCode >= FirstErrorStatus {
          if statusCode <= LastClientErrorStatus {
            InternalError(monitor.DecryptedData(), env, delivery, statusCode);
          } else {
            ExternalError(monitor.DecryptedData(), env, delivery);
          }
        } else {
          InspectDecode(monitor, env, delivery, onEmptySuccessResult);
        }
    }

    method InspectDecode<M, E>(monitor: Responses.Monitor, env: Environment<M, E>, delivery: Delivery<M, E>, onEmptySuccessResult: bool := false)
      modifies delivery
      ensures delivery.events == old(delivery.events) + InspectDecodeEvents(env, monitor, onEmptySuccessResult)
    {
      if monitor.DecryptedData().None? {
        if onEmptySuccessResult {
          delivery.OnEmptySuccessResult();
        }
        return;
      }
      match DecodeModel(env, monitor.DecryptedData(), monitor.Result())
      case Success(model) =>
        Finish(model, delivery);
      case Failure(_) =>
        InternalError(monitor.DecryptedData(), env, delivery);
    }

    method Finish<M, E>(model: M, delivery: Delivery<M, E>)
      modifies delivery
      ensures delivery.events == old(delivery.events) + [Complete(Success(model))]
    {
      delivery.Completion(Success(model));
    }

    method ExternalError<M, E>(data: Option<Data>, env: Environment<M, E>, delivery: Delivery<M, E>)
      modifies delivery
      ensures delivery.events == old(delivery.events) + [Complete(ExternalErrorResult(env, data))]
    {
      match Helpers.Decode(data, env.errorModel)
      case Success(model) =>
        delivery.Completion(Failure(Standard(ServerErrorStatus, Some(model))));
      case Failure(e) =>
        delivery.Completion(Failure(Unexpected(env.texts.helperError(e), data)));
    }

    method InternalError<M, E>(data: Option<Data>, env: Environment<M, E>, delivery: Delivery<M, E>, statusCode: int := DefaultErrorStatus)
      modifies delivery
      ensures delivery.events == old(delivery.events) + [Complete(InternalErrorResult(env, data, statusCode))]
    {
      match Helpers.Decode(data, env.errorModel)
      case Success(model) =>
        delivery.Completion(Failure(Standard(statusCode, Some(model))));
      case Failure(e) =>
        delivery.Completion(Failure(Unexpected(env.texts.helperError(e), data)));
    }

    method Fire<M, E>(error: NYError<CRExternalError>, env: Environment<M, E>, delivery: Delivery<M, E>)
      modifies delivery
      ensures delivery.events == old(delivery.events) + [Complete(FireResult(env, error))]
    {
      delivery.Completion(Failure(Unexpected(env.texts.fired(error), None)));
    }
  }
}
