/** The error middleware of the server: the decision table that turns a
    thrown error into an HTTP status and a message, and the `AppError` the
    routes throw. */
module ErrorHandler {
  import opened Wrappers
  import opened Strings

  /** A thrown error, as far as the middleware reads it. A `status` of 0 and
      an empty `message` or `code` stand for an absent property; `errors`
      holds the messages of the nested errors of a validation error. */
  datatype Error = Error(
    name: string,
    message: string,
    status: int,
    code: string,
    errors: seq<string>,
    stack: string)

  /** The JSON body `{ error: { message, status, stack? } }`. */
  datatype ErrorBody = ErrorBody(message: string, status: int, stack: Option<string>)

  const DefaultMessage: string := "Internal Server Error"

  /** `new AppError(message, status = 500)`. */
  function NewAppError(message: string, status: int := 500): (e: Error)
    ensures e.name == "AppError" && e.message == message && e.status == status
    ensures e.code == "" && e.errors == []
  {
    Error("AppError", message, status, "", [], "")
  }

  /** `errorHandler`: start from the error's own status and message, then let
      each matching rule overwrite them in turn; the database rule comes last.
      The stack is sent only in development. */
  function HandleError(err: Error, development: bool): (r: ErrorBody)
    ensures r.status == ExpectedStatus(err)
    ensures err.code == "SQLITE_CONSTRAINT" ==> r.message == "Resource already exists"
    ensures err.code != "SQLITE_CONSTRAINT" && err.name == "TokenExpiredError" ==> r.message == "Token expired"
    ensures err.code != "SQLITE_CONSTRAINT" && err.name == "JsonWebTokenError" ==> r.message == "Invalid token"
    ensures err.code != "SQLITE_CONSTRAINT" && err.name == "ValidationError" ==> r.message == Join(err.errors, ", ")
    ensures err.code != "SQLITE_CONSTRAINT" && !IsMappedName(err.name) ==>
      r.message == (if err.message != "" then err.message else DefaultMessage)
    ensures r.stack.Some? <==> development
    ensures development ==> r.stack.value == err.stack
  {
    var status0 := if err.status != 0 then err.status else 500;
    var message0 := if err.message != "" then err.message else DefaultMessage;
    var status1 := if err.name == "ValidationError" then 400 else status0;
    var message1 := if err.name == "ValidationError" then Join(err.errors, ", ") else message0;
    var status2 := if err.name == "JsonWebTokenError" then 401 else status1;
    var message2 := if err.name == "JsonWebTokenError" then "Invalid token" else message1;
    var status3 := if err.name == "TokenExpiredError" then 401 else status2;
    var message3 := if err.name == "TokenExpiredError" then "Token expired" else message2;
    var status4 := if err.code == "SQLITE_CONSTRAINT" then 409 else status3;
    var message4 := if err.code == "SQLITE_CONSTRAINT" then "Resource already exists" else message3;
    ErrorBody(message4, status4, if development then Some(err.stack) else None)
  }

  /** The error names the table maps to a status of their own. */
  predicate IsMappedName(name: string)
  {
    name == "ValidationError" || name == "JsonWebTokenError" || name == "TokenExpiredError"
  }

  /** The status table read by priority: a constraint violation first, then
      the token errors, then validation, and otherwise the error's own status
      or 500. */
  function ExpectedStatus(err: Error): int
  {
    if err.code == "SQLITE_CONSTRAINT" then 409
    else if err.name == "JsonWebTokenError" || err.name == "TokenExpiredError" then 401
    else if err.name == "ValidationError" then 400
    else if err.status != 0 then err.status
    else 500
  }

  /** Every status the handler sends is one of the four fixed ones or the
      error's own. */
  lemma StatusIsFixedOrOwn(err: Error, development: bool)
    ensures var s := HandleError(err, development).status;
      s in {400, 401, 409, 500} || s == err.status
  {
  }

  /** An `AppError` keeps the status and the message it was built with (500
      when none is given), since its name matches no rule; only a
      constraint code could override it and an `AppError` has none. */
  lemma AppErrorKeepsStatus(message: string, status: int, development: bool)
    requires message != ""
    ensures HandleError(NewAppError(message, status), development).status == if status != 0 then status else 500
    ensures HandleError(NewAppError(message, status), development).message == message
    ensures HandleError(NewAppError(message), development).status == 500
  {
  }

  /** The response does not depend on the environment except for the stack. */
  lemma EnvironmentOnlyAddsStack(err: Error)
    ensures HandleError(err, true).status == HandleError(err, false).status
    ensures HandleError(err, true).message == HandleError(err, false).message
    ensures HandleError(err, false).stack == None
  {
  }
}
