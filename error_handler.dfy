/** The API's last-resort error middleware (server/middleware/errorHandler.ts): which
    status and JSON body answer an error that reached it, and the 404 answer for an
    unmatched route. The `res.status(...).json(...)` write is the returned reply; the
    log line it also writes is not modelled. */
module ErrorHandler {
  import opened Wrappers
  import opened Schema

  /** A Zod validation error carries its issues; any other error is plain. */
  datatype ErrorKind = Plain | ZodError(issues: seq<Issue>)

  /** The fields of the thrown error the handler reads. An absent number or string is
      `None`; NaN is not modelled. */
  datatype AppError = AppError(
    kind: ErrorKind,
    status: Option<int>,
    statusCode: Option<int>,
    message: Option<string>,
    stack: Option<string>)

  datatype FieldError = FieldError(field: string, message: string)

  /** The JSON body: `errors` only on validation errors, `stack` only when sent. */
  datatype ErrorBody = ErrorBody(
    success: bool,
    message: string,
    errors: Option<seq<FieldError>>,
    stack: Option<string>)

  datatype ErrorReply = ErrorReply(status: int, body: ErrorBody)

  /** JavaScript truthiness of an optional number (NaN aside): absent and 0 are falsy. */
  predicate NumberTruthy(n: Option<int>) {
    n.Some? && n.value != 0
  }

  /** JavaScript truthiness of an optional string: absent and "" are falsy. */
  predicate StringTruthy(s: Option<string>) {
    s.Some? && s.value != ""
  }

  /** `err.status || err.statusCode || 500`: the first truthy status field, else 500;
      so the resolved status is never 0. */
  function ResolveStatus(err: AppError): (r: int)
    ensures r != 0
    ensures NumberTruthy(err.status) ==> r == err.status.value
    ensures !NumberTruthy(err.status) && NumberTruthy(err.statusCode) ==> r == err.statusCode.value
    ensures !NumberTruthy(err.status) && !NumberTruthy(err.statusCode) ==> r == 500
  {
    if NumberTruthy(err.status) then err.status.value
    else if NumberTruthy(err.statusCode) then err.statusCode.value
    else 500
  }

  /** `err.message || "Internal Server Error"`: never empty. */
  function ResolveMessage(err: AppError): (r: string)
    ensures r != ""
    ensures StringTruthy(err.message) ==> r == err.message.value
    ensures !StringTruthy(err.message) ==> r == "Internal Server Error"
  {
    if StringTruthy(err.message) then err.message.value else "Internal Server Error"
  }

  /** `err.errors.map(e => ({ field: e.path.join("."), message: e.message }))`. */
  function FieldErrors(issues: seq<Issue>): (r: seq<FieldError>)
    ensures |r| == |issues|
    ensures forall i :: 0 <= i < |issues| ==>
      r[i].field == JoinPath(issues[i].path) && r[i].message == issues[i].message
  {
    if issues == [] then []
    else [FieldError(JoinPath(issues[0].path), issues[0].message)] + FieldErrors(issues[1..])
  }

  /** `errorHandler`, with `production` standing for `NODE_ENV === "production"`. */
  function HandleError(err: AppError, production: bool): (r: ErrorReply)
    // every error body says the request failed
    ensures !r.body.success
    // validation errors: 400 whatever the status fields, one entry per issue, in order
    ensures err.kind.ZodError? ==>
      && r.status == 400
      && r.body.message == "Validation error"
      && r.body.errors == Some(FieldErrors(err.kind.issues))
      && r.body.stack.None?
    // other errors answer with the resolved status
    ensures err.kind.Plain? ==> r.status == ResolveStatus(err) && r.body.errors.None?
    // in production a 500 reveals nothing of the error
    ensures err.kind.Plain? && production && ResolveStatus(err) == 500 ==>
      r.body.message == "Internal server error"
    // otherwise the error's own message (or the fallback) is sent
    ensures err.kind.Plain? && !(production && ResolveStatus(err) == 500) ==>
      r.body.message == ResolveMessage(err)
    // the stack is sent exactly outside production, for errors that are not validation errors
    ensures production ==> r.body.stack.None?
    ensures !production && err.kind.Plain? ==> r.body.stack == err.stack
  {
    match err.kind
    case ZodError(issues) =>
      ErrorReply(400, ErrorBody(false, "Validation error", Some(FieldErrors(issues)), None))
    case Plain =>
      var status := ResolveStatus(err);
      if production && status == 500 then
        ErrorReply(500, ErrorBody(false, "Internal server error", None, None))
      else
        ErrorReply(status, ErrorBody(false, ResolveMessage(err), None,
                                     if production then None else err.stack))
  }

  /** In production no 500 reply carries the error's own message or its stack. */
  lemma ProductionHidesInternalErrors(err: AppError)
    ensures var r := HandleError(err, true);
      r.status == 500 ==> r.body.message == "Internal server error" && r.body.stack.None?
  {
  }

  /** Production and development differ only in what the body reveals: the status,
      the validation entries and (outside the 500 case) the message are the same. */
  lemma ProductionOnlyRedacts(err: AppError)
    ensures HandleError(err, true).status == HandleError(err, false).status
    ensures HandleError(err, true).body.errors == HandleError(err, false).body.errors
    ensures HandleError(err, false).status != 500 ==>
      HandleError(err, true).body.message == HandleError(err, false).body.message
  {
  }

  /** `notFoundHandler`: 404 with "Route <METHOD> <URL> not found". */
  function NotFound(httpMethod: string, url: string): (r: ErrorReply)
    ensures r.status == 404 && !r.body.success
    ensures r.body.errors.None? && r.body.stack.None?
    ensures r.body.message == "Route " + httpMethod + " " + url + " not found"
  {
    ErrorReply(404, ErrorBody(false, "Route " + httpMethod + " " + url + " not found", None, None))
  }

  /** Splitting "<method> <rest>" at the first space recovers the method when the
      method has no space in it. */
  lemma {:induction false} FirstSpaceSplit(m1: string, r1: string, m2: string, r2: string)
    requires ' ' !in m1 && ' ' !in m2
    requires m1 + " " + r1 == m2 + " " + r2
    ensures m1 == m2 && r1 == r2
  {
    assert m1 != [] ==> (m1 + " " + r1)[0] == m1[0];
    assert m2 != [] ==> (m2 + " " + r2)[0] == m2[0];
    assert m1 == [] ==> (m1 + " " + r1)[0] == ' ';
    assert m2 == [] ==> (m2 + " " + r2)[0] == ' ';
    if m1 == [] && m2 == [] {
      assert r1 == (m1 + " " + r1)[1..];
      assert r2 == (m2 + " " + r2)[1..];
    } else if m1 != [] && m2 != [] {
      assert m1[0] == (m1 + " " + r1)[0] == (m2 + " " + r2)[0] == m2[0];
      assert m1[1..] + " " + r1 == (m1 + " " + r1)[1..];
      assert m2[1..] + " " + r2 == (m2 + " " + r2)[1..];
      FirstSpaceSplit(m1[1..], r1, m2[1..], r2);
      assert m1 == [m1[0]] + m1[1..];
      assert m2 == [m2[0]] + m2[1..];
    }
  }

  /** An extra property, not one the handler promises or relies on: the 404 message
      identifies the request, since HTTP methods hold no space, so two requests with
      the same message have the same method and URL. */
  lemma NotFoundMessageIdentifiesRoute(m1: string, u1: string, m2: string, u2: string)
    requires ' ' !in m1 && ' ' !in m2
    requires NotFound(m1, u1).body.message == NotFound(m2, u2).body.message
    ensures m1 == m2 && u1 == u2
  {
    var s1 := NotFound(m1, u1).body.message;
    var s2 := NotFound(m2, u2).body.message;
    var suffix := " not found";
    assert s1 == "Route " + (m1 + " " + u1) + suffix;
    assert s2 == "Route " + (m2 + " " + u2) + suffix;
    assert |s1| == |s2|;
    assert m1 + " " + u1 == s1[6..|s1| - |suffix|];
    assert m2 + " " + u2 == s2[6..|s2| - |suffix|];
    FirstSpaceSplit(m1, u1, m2, u2);
  }
}
