/**
 * The results the service's handlers and its authentication middleware
 * produce (ASP.NET Core `IResult` values), each with its HTTP status.
 */
module HttpResults {

  import opened AuthModels
  import opened Todos

  datatype HttpResult =
    /** `Results.Problem(detail)`: a problem-details body with status 500. */
    | Problem(detail: string)
    /** `Results.Json(new { error }, statusCode: status)`. */
    | JsonError(status: int, error: string)
    /** `Results.Ok(new LoginResponse(...))`. */
    | LoginOk(login: LoginResponse)
    /** `Results.Ok(new LogoutResponse(...))`. */
    | LogoutOk(logout: LogoutResponse)
    /** A handler that returns the todo array: serialised with status 200. */
    | TodosOk(todos: seq<Todo>)
    /** `TypedResults.Ok(todo)`. */
    | TodoOk(todo: Todo)
    /** `TypedResults.NotFound()`. */
    | NotFound
    /** The authentication challenge, after the login redirect is replaced by a bare 401. */
    | Challenged

  /** The HTTP status code sent for a result. */
  function StatusCode(r: HttpResult): (code: int) {
    match r
    case Problem(_) => 500
    case JsonError(status, _) => status
    case LoginOk(_) => 200
    case LogoutOk(_) => 200
    case TodosOk(_) => 200
    case TodoOk(_) => 200
    case NotFound => 404
    case Challenged => 401
  }
}
