/** The error middleware: the last handler of the application, turning whatever was passed to
    `next(err)` into an HTTP status and a `{ success: false, error }` body. */
module ErrorMiddleware {
  import opened Base
  import opened Errors
  import opened Http

  /** errorHandler. Three independent checks overwrite the local error in turn, so a
      ValidationError wins over a duplicate key, which wins over a CastError. A ValidationError's
      message is the list of its field messages, which the error constructor turns into a string
      by joining them with commas. */
  method ErrorHandler(err: Err) returns (resp: Response)
    ensures resp.cookie == None && resp.body.Failure?
    ensures err.name == "ValidationError" ==>
      && resp.status == 400
      && resp.body.error == (if err.fieldMessages == [] || err.fieldMessages == [""] then "Server Error"
                             else Join(err.fieldMessages, ','))
    ensures err.name != "ValidationError" && err.code == 11000 ==>
      resp.status == 400 && resp.body.error == "Duplicate field value entered"
    ensures err.name == "CastError" && err.code != 11000 ==>
      resp.status == 404 && resp.body.error == "Resource not found"
    ensures err.name != "CastError" && err.name != "ValidationError" && err.code != 11000 ==>
      && resp.status == (if err.statusCode != 0 then err.statusCode else 500)
      && resp.body.error == (if err.message != "" then err.message else "Server Error")
  {
    var error := Err(err.name, err.code, err.statusCode, err.message, []);
    if err.name == "CastError" {
      error := ErrorResponse("Resource not found", 404);
    }
    if err.code == 11000 {
      error := ErrorResponse("Duplicate field value entered", 400);
    }
    if err.name == "ValidationError" {
      error := ErrorResponse(Join(err.fieldMessages, ','), 400);
      JoinEmpty(err.fieldMessages, ',');
    }
    var status := if error.statusCode != 0 then error.statusCode else 500;
    resp := Response(status, Failure(if error.message != "" then error.message else "Server Error"), None);
  }
}
