# NYNetwork response classification, modelled in Dafny

NYNetwork is a Swift networking layer over Alamofire. After a request finishes, `NetworkMonitor`
decides what the caller sees. It reads the status code, the body bytes and the transport outcome.
Then it invokes, in order, the optional `onEmptySuccessResult` callback, the `iWonAuthError`
notification and `completion` with a `Result<Model, NYError<ErrorModel>>`.

This project models that decision and proves what it delivers for every exchange.

- `foundation.dfy` (`Foundation`): Swift's `Optional`, `Result` and Foundation's `Data` as bytes.
- `codable.dfy` (`Models`): `BlankModel`, `CRExternalError`, `CRInternalError`.
- `nyerror.dfy` (`NYErrors`): the four-variant `NYError` and its `localizedDescription`.
  `IntText` is Swift's interpolation of an `Int`; `ParseInt` reads it back, so a standard error's
  text is shown to determine its status code.
- `network_helper.dfy` (`Helpers`): `NetworkHelper.decode(from:)`, `NetworkHelper.Error` and `choose`.
  The JSON decoder of each type is a caller-supplied total function from bytes to a value or an
  error text. JSON itself is not modelled.
- `monitor.dfy` (`Responses`): the exchange Alamofire hands over (`DataResponse`) and the read-only
  `Monitor` view of it. `Monitor`'s one field is assigned only by `init`, so it is a value here.
- `network_monitor.dfy` (`Monitoring`):
  - pure functions for each decision step: `StatusCodeFor`, `DecodeModel` (the private `decode`),
    `AppError`, and the results of `internalError`, `externalError` and `fire`;
  - `Classify`, the ordered list of events one exchange produces;
  - the class `NetworkMonitor`, whose methods follow the Swift methods call by call against a
    `Delivery` object that records each callback, notification and completion. Each method is
    proved to emit exactly its specification function, so `Monitor` emits `Classify`.
- `monitor_properties.dfy` (`MonitoringProperties`): the properties of `Classify`.

Behaviour of the code that a reader might not expect, modelled as written:
- A response without a status code completes with `.unexpected(_, data: nil)`, not a technical
  error (NetworkMonitor.swift:110-115, 165-166). Nothing in the pipeline produces `.technical`
  or `.unableToConnect`.
- Status 401 decodes the caller's `ErrorModel`, like the rest of 400-422, and not a fixed shape.
- Status above 422 decodes the caller's `ErrorModel` and always reports status 500
  (NetworkMonitor.swift:134-135). It does not switch to the message-only shape.
- Status 0 does not stop after the empty-success callback (NetworkMonitor.swift:51-53). It goes
  on into the success path, so with no body the callback fires twice and `completion` never runs.

## Model

| member | source | states |
|---|---|---|
| `Models.DefaultInternalError` | Sources/NYNetwork/Codable.swift:10-14 | a `CRInternalError` built without arguments has code, data and message all absent |
| `Models.DefaultExternalError` | Sources/NYNetwork/Codable.swift:6-8 | a `CRExternalError` built without arguments has no message, as the optional `message` defaults to nil |
| `Models.BlankModelsEqual` | Sources/NYNetwork/Codable.swift:2-4 | `BlankModel` has no fields, so any two values are equal |
| `Models.ExternalErrorDeterminedByMessage` | Sources/NYNetwork/Codable.swift:6-8 | a `CRExternalError` is exactly its one optional `message` |
| `Models.InternalErrorDeterminedByFields` | Sources/NYNetwork/Codable.swift:10-14 | a `CRInternalError` is exactly its optional code, data and message |
| `NYErrors.NYError.LocalizedDescription` | Sources/NYNetwork/NYError.swift:14-28 | total over the four variants; standard gives "Status code:: " then the status, from which the status can be read back; technical gives title, a line break, then description; unexpected gives its description verbatim; unableToConnect gives one fixed text |
| `NYErrors.IntTextRoundTrip` | Sources/NYNetwork/NYError.swift:17 | the decimal text of any `Int`, negative ones included, reads back to the same number |
| `NYErrors.StandardDescriptionIgnoresModel` | Sources/NYNetwork/NYError.swift:16-17 | a standard error's text does not depend on its model |
| `NYErrors.StandardDescriptionDeterminesStatus` | Sources/NYNetwork/NYError.swift:16-17 | two standard errors have the same text if and only if they have the same status code |
| `NYErrors.TechnicalDescriptionOfEqualParts` | Sources/NYNetwork/NYError.swift:19-20 | two technical errors with the same title and description have the same text |
| `NYErrors.TechnicalDescriptionDeterminesParts` | Sources/NYNetwork/NYError.swift:19-20 | when neither title holds a line break, two technical errors with the same text have the same title and description |
| `NYErrors.TechnicalDescriptionAmbiguousWithLineBreak` | Sources/NYNetwork/NYError.swift:19-20 | with a line break in the title the text loses the split: `("a\nb", "c")` and `("a", "b\nc")` both give "a\nb\nc" |
| `NYErrors.StandardModelDefaultsToAbsent` | Sources/NYNetwork/NYError.swift:6 | a standard error built without a model has none |
| `Helpers.Decode` | Sources/NYNetwork/NetworkHelper.swift:13-24 | succeeds if and only if data is present and the decoder accepts it, with the decoded value; absent data fails with `encodedDataNotFound`; a rejection becomes `decodeFailure` carrying the decoder's text |
| `Helpers.Choose` | Sources/NYNetwork/NetworkHelper.swift:37-40 | `choose(nil, c)` is `c`; `choose(d, c)` is `d` when `d` is present |
| `Responses.Monitor.StatusCode` | Sources/NYNetwork/Monitor.swift:12-14 | absent exactly when the exchange has no HTTP response, otherwise that response's status code |
| `Responses.Monitor.DecryptedData` | Sources/NYNetwork/Monitor.swift:16-18 | the response body, unchanged |
| `Responses.Monitor.Result` | Sources/NYNetwork/Monitor.swift:20-22 | the transport outcome, unchanged |
| `Monitoring.AppError` | Sources/NYNetwork/NetworkMonitor.swift:165-167 | an unexpected error with no data whose text is the described title |
| `Monitoring.StatusCodeFor` | Sources/NYNetwork/NetworkMonitor.swift:110-115 | succeeds if and only if there is an HTTP response, with its status code; otherwise fails with the "Response without status code" app error |
| `Monitoring.DecodeModel` | Sources/NYNetwork/NetworkMonitor.swift:117-130 | succeeds if and only if the body is present, the transport succeeded and the model decoder accepts the body, with that value; every failure is an unexpected error with no data |
| `Monitoring.InternalErrorResult` | Sources/NYNetwork/NetworkMonitor.swift:143-152 | always a failure; standard, with the given status (400 by default) and the decoded model, if and only if the body decodes as `ErrorModel`; otherwise unexpected carrying the body unchanged |
| `Monitoring.ExternalErrorResult` | Sources/NYNetwork/NetworkMonitor.swift:132-141 | always a failure; standard with status 500 and the decoded model if and only if the body decodes as `ErrorModel`; otherwise unexpected carrying the body unchanged |
| `Monitoring.FireResult` | Sources/NYNetwork/NetworkMonitor.swift:154-163 | a failure with an unexpected error and no data |
| `Monitoring.InspectDecodeEvents` | Sources/NYNetwork/NetworkMonitor.swift:75-96 | the effects of `inspectDecode`: at most one event; a completion exactly when there is a body; no event at all exactly when there is no body and no callback. Its outcomes are stated by `SuccessDecoded`, `SuccessFallback` and `SuccessWithoutBodyDecodesNothing` |
| `Monitoring.StatusBandEvents` | Sources/NYNetwork/NetworkMonitor.swift:59-69 | the last step once a status code is known: at most one event, and for a status of 400 or more exactly one completion, always a failure |
| `Monitoring.Classify` | Sources/NYNetwork/NetworkMonitor.swift:43-73 | the ordered events (callback, notification, completion) of one exchange: at most two, with a completion only as the last one. Its other properties are the `MonitoringProperties` lemmas |
| `Monitoring.NetworkMonitor.Monitor` | Sources/NYNetwork/NetworkMonitor.swift:29-36 | delivers exactly the events `Classify` lists for the response, in that order |
| `Monitoring.NetworkMonitor.InspectStatusCode` | Sources/NYNetwork/NetworkMonitor.swift:43-73 | delivers exactly `Classify`'s events for the monitored response |
| `Monitoring.NetworkMonitor.InspectDecode` | Sources/NYNetwork/NetworkMonitor.swift:75-96 | delivers exactly `InspectDecodeEvents`: with no body only the empty-success callback, otherwise one completion |
| `Monitoring.NetworkMonitor.Finish` | Sources/NYNetwork/NetworkMonitor.swift:98-102 | delivers one completion with `.success(model)` |
| `Monitoring.NetworkMonitor.ExternalError` | Sources/NYNetwork/NetworkMonitor.swift:132-141 | delivers one completion carrying `ExternalErrorResult` |
| `Monitoring.NetworkMonitor.InternalError` | Sources/NYNetwork/NetworkMonitor.swift:143-152 | delivers one completion carrying `InternalErrorResult` |
| `Monitoring.NetworkMonitor.Fire` | Sources/NYNetwork/NetworkMonitor.swift:154-163 | delivers one completion carrying `FireResult` |
| `MonitoringProperties.WithoutStatusCode` | Sources/NYNetwork/NetworkMonitor.swift:48-72 | with no status code the only event is one completion with `.unexpected(_, data: nil)`; no callback, no notification |
| `MonitoringProperties.AuthNotifyExactlyFor401` | Sources/NYNetwork/NetworkMonitor.swift:55-57 | the `iWonAuthError` notification is posted exactly once for status 401 and never for any other exchange |
| `MonitoringProperties.CompletionCount` | Sources/NYNetwork/NetworkMonitor.swift:43-96 | `completion` runs exactly once, except for a status below 400 with no body, where it never runs |
| `MonitoringProperties.EmptySuccessCount` | Sources/NYNetwork/NetworkMonitor.swift:51-89 | when given, the empty-success callback fires once for status 0 and once for a status below 400 without body, so twice for status 0 without body; never when not given or without a status code |
| `MonitoringProperties.CompletionComesLast` | Sources/NYNetwork/NetworkMonitor.swift:51-69 | a completion is always the last event: callback and notification come before it |
| `MonitoringProperties.StatusZeroWithoutBody` | Sources/NYNetwork/NetworkMonitor.swift:51-89 | status 0, no body and a callback: the events are exactly two empty-success callbacks |
| `MonitoringProperties.SuccessWithoutBodyDecodesNothing` | Sources/NYNetwork/NetworkMonitor.swift:85-89 | a status below 400 without body gives the same events whatever the decoders are, and no completion |
| `MonitoringProperties.ClientErrorBand` | Sources/NYNetwork/NetworkMonitor.swift:59-63 | for 400 to 422, 401 included: `.standard(status, model)` if the body decodes as `ErrorModel`, otherwise `.unexpected` carrying the body unchanged |
| `MonitoringProperties.ServerErrorBand` | Sources/NYNetwork/NetworkMonitor.swift:64-66 | above 422: `.standard(500, model)` whatever the status if the body decodes as `ErrorModel`, otherwise `.unexpected` carrying the body unchanged |
| `MonitoringProperties.SuccessDecoded` | Sources/NYNetwork/NetworkMonitor.swift:91-101 | below 400 with a body, transport success and a body the model decoder accepts: the completion is exactly `.success` of the decoded value, and no notification is posted |
| `MonitoringProperties.SuccessFallback` | Sources/NYNetwork/NetworkMonitor.swift:91-95 | below 400 with a body where the transport failed or the model decode failed: `.standard(400, model)` if the body decodes as `ErrorModel`, otherwise `.unexpected` carrying the body; never a success |
| `MonitoringProperties.SuccessOnlyFromDecodedBody` | Sources/NYNetwork/NetworkMonitor.swift:117-130 | a success completion implies a status below 400, a body, a transport success and that the model decoder accepted the body, yielding that value |
| `MonitoringProperties.NeverTechnicalOrUnableToConnect` | Sources/NYNetwork/NetworkMonitor.swift:43-166 | every failure delivered is `.standard` or `.unexpected` |
| `MonitoringProperties.StandardStatusReported` | Sources/NYNetwork/NetworkMonitor.swift:132-152 | a delivered `.standard` error has a model and reports the actual status for 400 to 422, 500 above 422, and 400 for a status below 400 |
| `MonitoringProperties.UnexpectedKeepsBody` | Sources/NYNetwork/NetworkMonitor.swift:139-160 | a delivered `.unexpected` error carries the body unchanged, or no data when there was no status code |

## Left out

- Alamofire request, upload and progress handling, timing and the `BlankModel() as! Model`
  force-casts in Sources/NYNetwork/NetworkManager.swift: transport plumbing, outside this model.
  The exchange it delivers is the input `DataResponse`.
- `LogManager.log` calls (NetworkMonitor.swift:60, 83): debug-only printing that never affects the
  outcome. `LogManager.describe` embeds a bundle path found at run time, so it is the opaque
  `Texts.describe`.
- The diagnostic `print(error)` in `NetworkHelper.decode` (NetworkHelper.swift:21): console output
  only; the rethrown `decodeFailure` is modelled.
- JSON decoding: each type's decoder is a caller-supplied function; JSON is not modelled.
- The wording of errors read through Swift's `Error` is opaque text held in `Texts`. This covers
  `NetworkHelper.Error` and the error thrown at NetworkMonitor.swift:125. Both are read through
  `Error` at NetworkMonitor.swift:128, 139 and 150, and their wording comes from the runtime's
  bridging. An `AFError`'s text is Alamofire's description of it, carried as
  `TransportFailed.description` in the input.
- Strings: a Dafny `string` is a sequence of Unicode scalars. Swift's `String` counts grapheme
  clusters (a "\r" before "\n" joins it into one `Character`) and compares by canonical
  equivalence. The lengths and positions in `NYErrors.NYError.LocalizedDescription`'s contract
  count scalars.
- `Monitoring.FireResult`: the dynamic cast `error as? NYError<ErrorModel>` (NetworkMonitor.swift:155)
  is not modelled. Both branches complete with `.unexpected` and no data for every error this
  file throws, and the description is the opaque `Texts.fired` of the error.
- `DispatchQueue.main.async` hops in `finish` and `fire`: delivery is modelled as an ordered
  event list. Nothing else of the pipeline runs after the hop, so the order is unchanged.
- `NotificationCenter.post` is modelled only as the `AuthNotify` event; observers are not modelled.
- The static hooks `errorRecorder` and `unauthorizedUserHandler` (NetworkMonitor.swift:18-19) are
  never invoked, because every call site is commented out.
- An optional `onEmptySuccessResult` closure is modelled by a flag saying whether it was given;
  what the closure itself does is the caller's.
