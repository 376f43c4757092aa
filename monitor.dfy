/** Sources/NYNetwork/Monitor.swift: the completed exchange as the transport hands it over, and
    the read-only `Monitor` view of it. */
module Responses {
  import opened Foundation

  /** The HTTP response head; only its status code is read. */
  datatype HTTPURLResponse = HTTPURLResponse(statusCode: int)

  /** The transport's `Result<Any, AFError>`; the success payload is never read, and an
      `AFError` is represented by its `localizedDescription`. */
  datatype TransportResult = Transferred | TransportFailed(description: string)

  /** Alamofire's `AFDataResponse<Any>`: the optional HTTP response, optional body and transport outcome. */
  datatype DataResponse = DataResponse(response: Option<HTTPURLResponse>, data: Option<Data>, result: TransportResult)

  /** `Monitor`: its `response` is assigned once, by `init`, so every projection below is a fixed
      function of that response. */
  datatype Monitor = Monitor(response: DataResponse)
  {
    /** Present exactly when the exchange produced an HTTP response. */
    function StatusCode(): (r: Option<int>)
      ensures r.None? <==> response.response.None?
      ensures r.Some? ==> r.value == response.response.value.statusCode
    {
      match response.response
      case None => None
      case Some(head) => Some(head.statusCode)
    }

    /** The response body, unchanged. */
    function DecryptedData(): (r: Option<Data>)
      ensures r == response.data
    {
      response.data
    }

    /** The transport outcome, unchanged. */
    function Result(): (r: TransportResult)
      ensures r == response.result
    {
      response.result
    }
  }
}
