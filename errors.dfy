/** The JSON replies of the API and the central error middleware
    (middleware/error.js): `errorHandler` turns whatever a handler passed to
    `next` into a status and a failure body, and `notFound` answers every
    request no route matched. */
module ErrorMiddleware {
  import opened Shared

  /** The error object a handler passes to `next`, reduced to the properties
      the middleware looks at: `name`, the driver's `code`, the
      `statusCode` of an `ErrorResponse`, `message`, and the per-path
      messages of a Mongoose `ValidationError` in path order. */
  datatype ErrorValue = ErrorValue(name: string, code: Option<int>, statusCode: Option<int>,
                                   message: string, errors: seq<string>)

  /** `new ErrorResponse(message, statusCode)`. */
  function AppError(message: string, status: int): ErrorValue {
    ErrorValue("Error", None, Some(status), message, [])
  }

  /** Mongoose's failure to cast a route parameter to an ObjectId. */
  function CastFailure(value: string): ErrorValue {
    ErrorValue("CastError", None, None,
               "Cast to ObjectId failed for value \"" + value + "\" at path \"_id\"", [])
  }

  /** The driver's E11000 error for a write that breaks a unique index. */
  function DuplicateKey(): ErrorValue {
    ErrorValue("MongoError", Some(11000), None, "E11000 duplicate key error", [])
  }

  /** Mongoose's `ValidationError`, carrying each failing path's message. */
  function ValidationFailure(model: string, messages: seq<string>): ErrorValue {
    ErrorValue("ValidationError", None, None, model + " validation failed", messages)
  }

  /** A `TypeError` thrown by reading a property of `undefined`. */
  function UndefinedRead(property: string): ErrorValue {
    ErrorValue("TypeError", None, None,
               "Cannot read property '" + property + "' of undefined", [])
  }

  /** A JSON body: a payload under `key` (with `count` for lists), or a failure. */
  datatype Body<D> = Data(key: string, data: D, count: Option<nat>) | Failure(key: string, error: string)

  datatype Reply<D> = Reply(status: int, body: Body<D>)

  /** The local `error` of `errorHandler` after its three overrides: each
      recognised kind replaces it with an `ErrorResponse`, and a later match
      overrides an earlier one. */
  function Classified(err: ErrorValue): ErrorValue {
    var copied := err;
    var afterCast := if err.name == "CastError" then AppError("Resource not found", 404) else copied;
    var afterDuplicate := if err.code == Some(11000) then AppError("Duplicate field value entered", 400) else afterCast;
    if err.name == "ValidationError" then AppError(Join(err.errors, ","), 400) else afterDuplicate
  }

  /** `errorHandler`: the status is the classified error's `statusCode`, 500
      when it has none (or 0); the body always carries the `sucess: false`
      key (spelled so) and the message, 'Server Error' when it is empty. The
      priority of the kinds is the reverse of their order in the code. */
  function ErrorHandler<D>(err: ErrorValue): (r: Reply<D>)
    ensures r.body.Failure? && r.body.key == "sucess" && r.body.error != ""
    ensures err.name == "ValidationError" ==>
      r.status == 400 && r.body.error == (if Join(err.errors, ",") == "" then "Server Error" else Join(err.errors, ","))
    ensures err.name != "ValidationError" && err.code == Some(11000) ==>
      r == Reply(400, Failure("sucess", "Duplicate field value entered"))
    ensures err.name != "ValidationError" && err.code != Some(11000) && err.name == "CastError" ==>
      r == Reply(404, Failure("sucess", "Resource not found"))
    ensures err.name != "ValidationError" && err.code != Some(11000) && err.name != "CastError" ==>
      && r.status == (if err.statusCode.Some? && err.statusCode.value != 0 then err.statusCode.value else 500)
      && r.body.error == (if err.message == "" then "Server Error" else err.message)
  {
    var error := Classified(err);
    var status := if error.statusCode.Some? && error.statusCode.value != 0 then error.statusCode.value else 500;
    Reply(status, Failure("sucess", if error.message == "" then "Server Error" else error.message))
  }

  /** An `ErrorResponse` a handler raises reaches the client unchanged. */
  lemma AppErrorReply<D>(message: string, status: int)
    requires message != "" && status != 0
    ensures ErrorHandler<D>(AppError(message, status)) == Reply(status, Failure("sucess", message))
  {
  }

  /** A validation failure answers 400 with the path messages joined by
      commas, whenever the first of them is not empty. */
  lemma ValidationReply<D>(model: string, messages: seq<string>)
    requires messages != [] && messages[0] != ""
    ensures ErrorHandler<D>(ValidationFailure(model, messages)) == Reply(400, Failure("sucess", Join(messages, ",")))
  {
    JoinEmpty(messages, ",");
  }

  /** What the client receives for a handler's outcome: its own reply, or
      whatever the error middleware makes of the error it passed on. */
  function Respond<D>(outcome: Result<Reply<D>, ErrorValue>): (r: Reply<D>)
    ensures outcome.Ok? ==> r == outcome.value
    ensures outcome.Err? ==> r == ErrorHandler(outcome.error)
  {
    match outcome
    case Ok(reply) => reply
    case Err(e) => ErrorHandler(e)
  }

  /** `notFound`: the fallback of every router. */
  function NotFound<D>(): (r: Reply<D>)
    ensures r.status == 404 && r.body == Failure("success", "Route not found")
  {
    Reply(404, Failure("success", "Route not found"))
  }
}
