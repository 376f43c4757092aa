/** Sources/NYNetwork/NetworkHelper.swift: turning optional body bytes into a typed value,
    and the `choose` default helper. */
module Helpers {
  import opened Foundation

  /** `JSONDecoder().decode(T.self, from:)`: either the decoded value or the decoder's error text.
      JSON itself is not modelled; the caller supplies the decoder of each type. */
  type Decoder<T> = Data -> Result<T, string>

  /** `NetworkHelper.Error`. */
  datatype HelperError = EncodedDataNotFound | DecodeFailure(description: string)

  /** `NetworkHelper.decode(from:)`: absent bytes fail with `encodedDataNotFound`; a rejection by the
      decoder is rethrown as `decodeFailure` carrying the decoder's text, never as the decoder's own error. */
  function Decode<T>(data: Option<Data>, decoder: Decoder<T>): (r: Result<T, HelperError>)
    ensures r.Success? <==> data.Some? && decoder(data.value).Success?
    ensures r.Success? ==> r.value == decoder(data.value).value
    ensures data.None? ==> r == Failure(EncodedDataNotFound)
    ensures data.Some? && decoder(data.value).Failure? ==> r == Failure(DecodeFailure(decoder(data.value).error))
  {
    match data
    case None => Failure(EncodedDataNotFound)
    case Some(bytes) =>
      match decoder(bytes)
      case Success(decoded) => Success(decoded)
      case Failure(description) => Failure(DecodeFailure(description))
  }

  /** `choose(data, certain)`: the optional value when present, the fallback otherwise. */
  function Choose<T>(data: Option<T>, certain: T): (r: T)
    ensures data.None? ==> r == certain
    ensures data.Some? ==> r == data.value
  {
    match data
    case None => certain
    case Some(value) => value
  }
}
