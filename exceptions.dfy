/**
 * The service's error taxonomy (app/exceptions.py), with the two errors raised
 * by the service wrapper itself.  Each Python exception class becomes one
 * constructor carrying the exception's detail text.
 */
module Exceptions {
  import opened Wrappers

  datatype ServiceError =
    | ModelInferenceError(detail: string)   // an HTTPException with status 500
    | ModelLoadError(detail: string)        // a RuntimeError: not an HTTP error
    | EmptyInputError(detail: string)       // an HTTPException with status 400
    | RuntimeError(detail: string)          // the plain RuntimeError of get_text_detection_service
  {
    /** The HTTP status code carried by the error, for the errors that are HTTP exceptions. */
    function StatusCode(): (code: Option<nat>)
      ensures code.Some? <==> (ModelInferenceError? || EmptyInputError?)
      ensures ModelInferenceError? ==> code == Some(500)
      ensures EmptyInputError? ==> code == Some(400)
    {
      match this
      case ModelInferenceError(_) => Some(500)
      case EmptyInputError(_) => Some(400)
      case ModelLoadError(_) => None
      case RuntimeError(_) => None
    }
  }
}
