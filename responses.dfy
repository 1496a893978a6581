/**
 * The error answers the handlers give, with the HTTP status each is sent with. A request
 * body that fails binding is answered with the binding library's own message, which the
 * model does not reproduce.
 */
module Responses {

  datatype ApiError =
    | InvalidBody
    | BadRequest(message: string)
    | NotFound(message: string)
    | Conflict(message: string)
      /** A refused delete: the message plus the count of rows that block it, under `countField`. */
    | Blocked(message: string, countField: string, count: nat)

  function StatusCode(e: ApiError): (code: nat)
    ensures code in {400, 404, 409}
  {
    match e
    case InvalidBody => 400
    case BadRequest(_) => 400
    case NotFound(_) => 404
    case Conflict(_) => 409
    case Blocked(_, _, _) => 400
  }
}
