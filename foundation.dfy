/** The Swift standard-library and Foundation shapes the pipeline is written against:
    `Optional`, `Result` and `Data` (a byte sequence). */
module Foundation {

  /** Swift's `Optional`. */
  datatype Option<+T> = None | Some(value: T)

  /** Swift's `Result<Success, Failure>`. */
  datatype Result<+T, +E> = Success(value: T) | Failure(error: E)

  newtype byte = b: int | 0 <= b < 256

  /** Foundation's `Data`: the raw body bytes of a response. */
  type Data = seq<byte>
}
