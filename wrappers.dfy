/** Optional values and the shape of a handler's JSON reply. */
module Wrappers {

  /** A value that may be absent: a Go pointer field, a JSON field that may be omitted. */
  datatype Option<+T> = None | Some(value: T) {

    /** The value when present, `default` otherwise. */
    function GetOr(default: T): T {
      match this
      case Some(v) => v
      case None => default
    }
  }

  /** The `error` member of a failure body. */
  datatype ErrorBody =
    | Message(text: string)  // a fixed text chosen by the handler
    | BindError              // the text of the JSON-binding library's error, not modelled

  /** What a handler writes: a status code and either a success payload or an error body. */
  datatype Reply<+T> =
    | Success(code: int, value: T)
    | Failure(code: int, error: ErrorBody)

  const StatusOK := 200
  const StatusCreated := 201
  const StatusNoContent := 204
  const StatusBadRequest := 400
  const StatusNotFound := 404
  const StatusInternalServerError := 500
}
