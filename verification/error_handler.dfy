/**
 * The terminal error-handling middleware: it fills in a default status code
 * and status on the error it receives, then answers with that status code
 * and a JSON envelope holding the status, the message and the error itself.
 */
module ErrorHandler {
  import opened Js
  import opened AppErrors

  const DefaultStatusCode := 500
  const DefaultStatus := "error"

  /** The JSON body `{status, message, error}`. */
  datatype Body = Body(status: string, message: string, error: ErrorValue)

  /** The HTTP status the response is sent with, and its body. */
  datatype Response = Response(httpStatus: int, body: Body)

  /** The error after the handler's two defaulting assignments. */
  function Normalise(err: ErrorValue): (n: ErrorValue)
    ensures TruthyNumber(n.statusCode) && TruthyString(n.status)
    ensures n.message == err.message && n.isOperational == err.isOperational
    ensures TruthyNumber(err.statusCode) ==> n.statusCode == err.statusCode
    ensures TruthyString(err.status) ==> n.status == err.status
    ensures !TruthyNumber(err.statusCode) ==> n.statusCode == Some(DefaultStatusCode)
    ensures !TruthyString(err.status) ==> n.status == Some(DefaultStatus)
  {
    err.(statusCode := Some(OrNumber(err.statusCode, DefaultStatusCode)),
         status := Some(OrString(err.status, DefaultStatus)))
  }

  /**
   * The response sent for an error that reaches the handler: a truthy code
   * is sent as is, and 500 exactly when the code is absent, 0 or 500; a
   * non-empty status is kept, and the body says "error" exactly when the
   * status was absent, empty or "error".
   */
  function Handle(err: ErrorValue): (r: Response)
    ensures r.httpStatus != 0
    ensures TruthyNumber(err.statusCode) ==> r.httpStatus == err.statusCode.value
    ensures r.httpStatus == 500 <==> !TruthyNumber(err.statusCode) || err.statusCode == Some(500)
    ensures TruthyString(err.status) ==> r.body.status == err.status.value
    ensures r.body.status == "error" <==> !TruthyString(err.status) || err.status == Some("error")
    ensures r.body.status == "fail" ==> err.status == Some("fail")
    ensures r.body.error == Normalise(err)
    ensures r.body.error.statusCode == Some(r.httpStatus)
    ensures r.body.error.status == Some(r.body.status)
    ensures r.body.message == err.message
  {
    var n := Normalise(err);
    Response(n.statusCode.value, Body(n.status.value, err.message, n))
  }

  /** The body status depends on the error's status alone: it is never re-derived from the code. */
  lemma StatusNotRederived(e1: ErrorValue, e2: ErrorValue)
    requires e1.status == e2.status
    ensures Handle(e1).body.status == Handle(e2).body.status
  {
  }

  /** A plain error carrying code 404 and no status is answered 404 with body status "error". */
  lemma PlainNotFound(message: string)
    ensures Handle(PlainError(message).(statusCode := Some(404)))
      == Response(404, Body("error", message, ErrorValue(message, Some(404), Some("error"), false)))
  {
  }

  /** Handling the error echoed in a response yields that same response again. */
  lemma HandleIdempotent(err: ErrorValue)
    ensures Handle(Handle(err).body.error) == Handle(err)
  {
  }

  /**
   * For any AppError, the body status is the classification of the HTTP
   * status actually sent: a code that was defaulted to 500 had been
   * classified "error" already (it was absent or rendered as "0").
   */
  lemma AppErrorStatusAgrees(message: string, code: Option<int>)
    ensures var r := Handle(NewAppError(message, code));
      r.body.status == Classify(Some(r.httpStatus)).Text()
  {
  }

  /** The agreement fails for errors not built by the AppError constructor. */
  lemma PlainErrorStatusDisagrees()
    ensures var r := Handle(PlainError("").(statusCode := Some(404)));
      r.body.status != Classify(Some(r.httpStatus)).Text()
  {
  }

  /** End to end: AppError with code 0 or no code gives 500 "error"; with code 404 gives 404 "fail". */
  lemma AppErrorEndToEnd(message: string)
    ensures Handle(NewAppError(message, Some(0))).httpStatus == 500
    ensures Handle(NewAppError(message, Some(0))).body.status == "error"
    ensures Handle(NewAppError(message, None)).httpStatus == 500
    ensures Handle(NewAppError(message, None)).body.status == "error"
    ensures Handle(NewAppError(message, Some(404))).httpStatus == 404
    ensures Handle(NewAppError(message, Some(404))).body.status == "fail"
  {
  }
}
