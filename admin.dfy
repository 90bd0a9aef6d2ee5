/** What the admin routes share: their response shape. The admin check
    itself (session lookup and redirect) is outside the model; every admin
    operation takes the id of the admin performing it. */
module Admin {

  datatype AdminResponse =
    | Success
    | BadRequest(message: string)
    | NotFound(message: string)
    | ServerError(message: string)

  function HttpStatus(r: AdminResponse): nat
  {
    match r
    case Success => 200
    case BadRequest(_) => 400
    case NotFound(_) => 404
    case ServerError(_) => 500
  }
}
