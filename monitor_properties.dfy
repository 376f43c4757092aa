/** What the classification in Sources/NYNetwork/NetworkMonitor.swift promises, stated over the
    event sequence `Classify` produces for one exchange. */
module MonitoringProperties {
  import opened Foundation
  import opened NYErrors
  import opened Responses
  import opened Monitoring

  datatype EventKind = EmptySuccessKind | AuthNotifyKind | CompleteKind

  function KindOf<M, E>(event: Event<M, E>): (kind: EventKind)
  {
    match event
    case EmptySuccess => EmptySuccessKind
    case AuthNotify => AuthNotifyKind
    case Complete(_) => CompleteKind
  }

  /** How many events of one kind a sequence holds. */
  function Count<M, E>(events: seq<Event<M, E>>, kind: EventKind): (n: nat)
  {
    if events == [] then 0
    else (if KindOf(events[0]) == kind then 1 else 0) + Count(events[1..], kind)
  }

  /** The result handed to `completion`, when the last event is a completion. */
  function Terminal<M, E>(events: seq<Event<M, E>>): (result: Option<Result<M, NYError<E>>>)
  {
    if |events| > 0 && events[|events| - 1].Complete? then Some(events[|events| - 1].result) else None
  }

  function StatusOf(response: DataResponse): (statusCode: Option<int>)
  {
    Monitor(response).StatusCode()
  }

  /** Counting over a response with a status code: the callback for status 0 and the notification
      for 401, which come first, plus the terminal step's events. */
  lemma CountSplits<M, E>(env: Environment<M, E>, response: DataResponse, onEmptySuccessResult: bool, kind: EventKind)
    requires response.response.Some?
    ensures var statusCode := response.response.value.statusCode;
      Count(Classify(env, response, onEmptySuccessResult), kind) ==
        (if kind == EmptySuccessKind && statusCode == EmptySuccessStatus && onEmptySuccessResult then 1 else 0)
        + (if kind == AuthNotifyKind && statusCode == UnauthorizedStatus then 1 else 0)
        + Count(StatusBandEvents(env, Monitor(response), statusCode, onEmptySuccessResult), kind)
  {
  }

  /** No status code: exactly one event, a completion with an unexpected error and no data;
      neither the callback nor the notification fires. */
  lemma WithoutStatusCode<M, E>(env: Environment<M, E>, response: DataResponse, onEmptySuccessResult: bool)
    requires response.response.None?
    ensures var events := Classify(env, response, onEmptySuccessResult);
      |events| == 1 && events[0].Complete? && events[0].result.Failure?
      && events[0].result.error.Unexpected? && events[0].result.error.data == None
  {
  }

  /** The `iWonAuthError` notification is posted once for status 401 and never otherwise. */
  lemma {:induction false} AuthNotifyExactlyFor401<M, E>(env: Environment<M, E>, response: DataResponse, onEmptySuccessResult: bool)
    ensures Count(Classify(env, response, onEmptySuccessResult), AuthNotifyKind) == if StatusOf(response) == Some(UnauthorizedStatus) then 1 else 0
  {
    if response.response.Some? {
      CountSplits(env, response, onEmptySuccessResult, AuthNotifyKind);
    }
  }

  /** `completion` is called exactly once, except for a success status without a body, where it is
      never called. */
  lemma {:induction false} CompletionCount<M, E>(env: Environment<M, E>, response: DataResponse, onEmptySuccessResult: bool)
    ensures Count(Classify(env, response, onEmptySuccessResult), CompleteKind) ==
      if StatusOf(response).Some? && StatusOf(response).value < FirstErrorStatus && response.data.None? then 0 else 1
  {
    if response.response.Some? {
      CountSplits(env, response, onEmptySuccessResult, CompleteKind);
    }
  }

  /** The empty-success callback fires once for status 0 and once more for a success status
      without a body, and only when the caller supplied it. */
  lemma {:induction false} EmptySuccessCount<M, E>(env: Environment<M, E>, response: DataResponse, onEmptySuccessResult: bool)
    ensures Count(Classify(env, response, onEmptySuccessResult), EmptySuccessKind) ==
      if !onEmptySuccessResult || StatusOf(response).None? then 0
      else
        (if StatusOf(response).value == EmptySuccessStatus then 1 else 0)
        + (if StatusOf(response).value < FirstErrorStatus && response.data.None? then 1 else 0)
  {
    if response.response.Some? {
      CountSplits(env, response, onEmptySuccessResult, EmptySuccessKind);
    }
  }

  /** Callbacks and notification come first; a completion, when there is one, is the last event. */
  lemma CompletionComesLast<M, E>(env: Environment<M, E>, response: DataResponse, onEmptySuccessResult: bool, i: int)
    requires 0 <= i < |Classify(env, response, onEmptySuccessResult)|
    requires Classify(env, response, onEmptySuccessResult)[i].Complete?
    ensures i == |Classify(env, response, onEmptySuccessResult)| - 1
  {
  }

  /** Status 0 with no body and a callback: the callback fires twice and `completion` never runs. */
  lemma StatusZeroWithoutBody<M, E>(env: Environment<M, E>, response: DataResponse)
    requires StatusOf(response) == Some(EmptySuccessStatus) && response.data.None?
    ensures Classify(env, response, true) == [EmptySuccess, EmptySuccess]
  {
  }

  /** A success status without a body never consults the decoders: the events do not depend on them. */
  lemma SuccessWithoutBodyDecodesNothing<M, E>(env: Environment<M, E>, other: Environment<M, E>, response: DataResponse, onEmptySuccessResult: bool)
    requires StatusOf(response).Some? && StatusOf(response).value < FirstErrorStatus && response.data.None?
    ensures Classify(env, response, onEmptySuccessResult) == Classify(other, response, onEmptySuccessResult)
    ensures Terminal(Classify(env, response, onEmptySuccessResult)) == None
  {
  }

  /** 400 to 422, 401 included: a standard error with the status itself when the body decodes as
      `ErrorModel`, otherwise an unexpected error carrying the body unchanged. */
  lemma ClientErrorBand<M, E>(env: Environment<M, E>, response: DataResponse, onEmptySuccessResult: bool)
    requires StatusOf(response).Some? && FirstErrorStatus <= StatusOf(response).value <= LastClientErrorStatus
    ensures var t := Terminal(Classify(env, response, onEmptySuccessResult));
      t.Some? && t.value.Failure?
      && (response.data.Some? && env.errorModel(response.data.value).Success? ==>
            t.value.error == Standard(StatusOf(response).value, Some(env.errorModel(response.data.value).value)))
      && (!(response.data.Some? && env.errorModel(response.data.value).Success?) ==>
            t.value.error.Unexpected? && t.value.error.data == response.data)
  {
  }

  /** Above 422: the body is decoded as the caller's `ErrorModel` and reported with status 500,
      whatever the actual status; an undecodable body gives an unexpected error carrying it. */
  lemma ServerErrorBand<M, E>(env: Environment<M, E>, response: DataResponse, onEmptySuccessResult: bool)
    requires StatusOf(response).Some? && StatusOf(response).value > LastClientErrorStatus
    ensures var t := Terminal(Classify(env, response, onEmptySuccessResult));
      t.Some? && t.value.Failure?
      && (response.data.Some? && env.errorModel(response.data.value).Success? ==>
            t.value.error == Standard(ServerErrorStatus, Some(env.errorModel(response.data.value).value)))
      && (!(response.data.Some? && env.errorModel(response.data.value).Success?) ==>
            t.value.error.Unexpected? && t.value.error.data == response.data)
  {
  }

  /** A success status, a body, a transport success and a body that decodes as `Model`: the
      completion is exactly that model, and no notification is posted. */
  lemma SuccessDecoded<M, E>(env: Environment<M, E>, response: DataResponse, onEmptySuccessResult: bool)
    requires StatusOf(response).Some? && StatusOf(response).value < FirstErrorStatus
    requires response.data.Some? && response.result.Transferred? && env.model(response.data.value).Success?
    ensures Terminal(Classify(env, response, onEmptySuccessResult)) == Some(Success(env.model(response.data.value).value))
    ensures Count(Classify(env, response, onEmptySuccessResult), AuthNotifyKind) == 0
  {
    AuthNotifyExactlyFor401(env, response, onEmptySuccessResult);
  }

  /** A success status with a body that the transport failed or the model decoder rejected falls back
      to the error model with status 400; it never completes with a success. */
  lemma SuccessFallback<M, E>(env: Environment<M, E>, response: DataResponse, onEmptySuccessResult: bool)
    requires StatusOf(response).Some? && StatusOf(response).value < FirstErrorStatus
    requires response.data.Some? && (response.result.TransportFailed? || env.model(response.data.value).Failure?)
    ensures var t := Terminal(Classify(env, response, onEmptySuccessResult));
      t.Some? && t.value.Failure?
      && (env.errorModel(response.data.value).Success? ==>
            t.value.error == Standard(DefaultErrorStatus, Some(env.errorModel(response.data.value).value)))
      && (env.errorModel(response.data.value).Failure? ==>
            t.value.error.Unexpected? && t.value.error.data == response.data)
  {
  }

  /** The converse of `SuccessDecoded`: a success is only ever delivered for a success status, a
      transport success and a body the model decoder accepts, and it is that decoded value. */
  lemma SuccessOnlyFromDecodedBody<M, E>(env: Environment<M, E>, response: DataResponse, onEmptySuccessResult: bool)
    requires Terminal(Classify(env, response, onEmptySuccessResult)).Some?
    requires Terminal(Classify(env, response, onEmptySuccessResult)).value.Success?
    ensures StatusOf(response).Some? && StatusOf(response).value < FirstErrorStatus
    ensures response.data.Some? && response.result.Transferred? && env.model(response.data.value).Success?
    ensures Terminal(Classify(env, response, onEmptySuccessResult)).value.value == env.model(response.data.value).value
  {
  }

  /** Every failure delivered is standard or unexpected: the pipeline never produces a technical
      error or `unableToConnect`. */
  lemma NeverTechnicalOrUnableToConnect<M, E>(env: Environment<M, E>, response: DataResponse, onEmptySuccessResult: bool)
    requires Terminal(Classify(env, response, onEmptySuccessResult)).Some?
    requires Terminal(Classify(env, response, onEmptySuccessResult)).value.Failure?
    ensures Terminal(Classify(env, response, onEmptySuccessResult)).value.error.Standard?
         || Terminal(Classify(env, response, onEmptySuccessResult)).value.error.Unexpected?
  {
  }

  /** The status a standard error reports: the actual status from 400 to 422, 500 above 422, and
      the default 400 for a success status whose body did not decode; its model is always present. */
  lemma StandardStatusReported<M, E>(env: Environment<M, E>, response: DataResponse, onEmptySuccessResult: bool)
    requires Terminal(Classify(env, response, onEmptySuccessResult)).Some?
    requires Terminal(Classify(env, response, onEmptySuccessResult)).value.Failure?
    requires Terminal(Classify(env, response, onEmptySuccessResult)).value.error.Standard?
    ensures StatusOf(response).Some?
    ensures var statusCode := StatusOf(response).value;
      var error := Terminal(Classify(env, response, onEmptySuccessResult)).value.error;
      error.model.Some?
      && error.statusCode == if statusCode > LastClientErrorStatus then ServerErrorStatus
                             else if statusCode >= FirstErrorStatus then statusCode
                             else DefaultErrorStatus
  {
  }

  /** An unexpected error carries the body unchanged, or no data when there was no status code. */
  lemma UnexpectedKeepsBody<M, E>(env: Environment<M, E>, response: DataResponse, onEmptySuccessResult: bool)
    requires Terminal(Classify(env, response, onEmptySuccessResult)).Some?
    requires Terminal(Classify(env, response, onEmptySuccessResult)).value.Failure?
    requires Terminal(Classify(env, response, onEmptySuccessResult)).value.error.Unexpected?
    ensures Terminal(Classify(env, response, onEmptySuccessResult)).value.error.data ==
      if StatusOf(response).None? then None else response.data
  {
  }
}
