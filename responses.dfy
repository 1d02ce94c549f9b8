/**
 * The HTTP answers the controllers give. The response-writing helpers are not part of
 * this model; each answer is named after its helper and carries the status code the
 * service's design assigns it. A Go panic in a handler writes no answer at all: the
 * server recovers and drops the connection.
 */
module Responses {
  import opened Wrappers
  import opened Models

  datatype Response =
    | Ok
    | Json(comment: CommentDTO)
    | InvalidRequest
    | ValidationError(message: string)
    | BadRequest(message: string)
    | Forbidden
    | LeadNotFound
    | MethodNotAllowed(allow: string)
    | ServerError
    | ConnectionClosed

  /** The status line of a response; none when the connection is dropped. */
  function StatusCode(r: Response): Option<int>
  {
    match r
    case Ok => Some(200)
    case Json(_) => Some(200)
    case InvalidRequest => Some(400)
    case ValidationError(_) => Some(400)
    case BadRequest(_) => Some(400)
    case Forbidden => Some(403)
    case LeadNotFound => Some(404)
    case MethodNotAllowed(_) => Some(405)
    case ServerError => Some(500)
    case ConnectionClosed => None
  }

  /** A request as the handlers read it: `form` is None when the body cannot be parsed as a form. */
  datatype Request = Request(verb: string, form: Option<map<string, string>>)

  /** `r.FormValue(key)`: the value, or "" when the key is absent. */
  function FormValue(form: map<string, string>, key: string): string
  {
    if key in form then form[key] else ""
  }
}
