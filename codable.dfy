/** The value types of Sources/NYNetwork/Codable.swift: the empty model and the two
    error-body shapes a backend may send. */
module Models {
  import opened Foundation

  /** A model with no fields. */
  datatype BlankModel = BlankModel

  /** The message-only error body; its message defaults to absent. */
  datatype CRExternalError = CRExternalError(message: Option<string> := None)

  /** The error body with an optional code, data and message; every field defaults to absent. */
  datatype CRInternalError = CRInternalError(
    code: Option<string> := None,
    data: Option<string> := None,
    message: Option<string> := None)

  /** `CRInternalError()`: the value built when no field is given. */
  function DefaultInternalError(): (e: CRInternalError)
    ensures e.code == None && e.data == None && e.message == None
  {
    CRInternalError()
  }

  /** `CRExternalError()`: the value built when no message is given. */
  function DefaultExternalError(): (e: CRExternalError)
    ensures e.message == None
  {
    CRExternalError()
  }

  /** A field-less struct has a single value. */
  lemma BlankModelsEqual(a: BlankModel, b: BlankModel)
    ensures a == b
  {
  }

  /** Two message-only bodies are equal exactly when their messages are. */
  lemma ExternalErrorDeterminedByMessage(a: CRExternalError, b: CRExternalError)
    ensures a == b <==> a.message == b.message
  {
  }

  /** Two internal bodies are equal exactly when code, data and message all agree. */
  lemma InternalErrorDeterminedByFields(a: CRInternalError, b: CRInternalError)
    ensures a == b <==> (a.code == b.code && a.data == b.data && a.message == b.message)
  {
  }
}
