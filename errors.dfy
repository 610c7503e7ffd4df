/**
  The error helpers of src/helper/Errors.js and the JSON envelope that
  `sendError` writes. The helpers are defaulting constructors of
  `CustomError`; `sendError` is modelled by the response it builds.
 */
module Errors {

  import opened Js
  import opened Wrappers
  import opened CustomErrors

  /** The options object of `badRequest`; `Undefined` is an absent key. */
  datatype BadRequestOptions = BadRequestOptions(name: Value, message: Value, detail: Value)

  /** `badRequest()` called with no options, or with `{}`. */
  const NoOptions := BadRequestOptions(Undefined, Undefined, Undefined)

  /** An options object holding only `detail`, as in `badRequest({detail: d})`. */
  function DetailOnly(d: string): BadRequestOptions
  {
    BadRequestOptions(Undefined, Undefined, Str(d))
  }

  /** `badRequest(options)`: a 400 whose absent name and message take the defaults. */
  function BadRequest(options: BadRequestOptions): (e: ErrorFields)
    ensures StringOrUndefined(options.name) && StringOrUndefined(options.message) ==>
      ReadStatusCode(e) == Num(400) &&
      ReadName(e) == (if options.name.Undefined? then Str("BadRequest") else options.name) &&
      ReadMessage(e) == (if options.message.Undefined? then Str("Invalid request") else options.message) &&
      ReadDetail(e) == options.detail
    ensures !(StringOrUndefined(options.name) && StringOrUndefined(options.message)) ==>
      ReadStatusCode(e) == Undefined
  {
    Create(Default(options.name, Str("BadRequest")), Default(options.message, Str("Invalid request")),
           options.detail, Num(400))
  }

  /** `invalidParam(m)`: a 400 'Invalid parameter' whose detail is `m`, whatever `m` is. */
  function InvalidParam(message: Value): (e: ErrorFields)
    ensures ReadStatusCode(e) == Num(400)
    ensures ReadName(e) == Str("BadRequest")
    ensures ReadMessage(e) == Str("Invalid parameter")
    ensures ReadDetail(e) == message
  {
    BadRequest(BadRequestOptions(Undefined, Str("Invalid parameter"), message))
  }

  /** `paramMissing(m, d)`: a 400 named 'ParamMissing'. */
  function ParamMissing(message: Value, detail: Value): (e: ErrorFields)
    ensures StringOrUndefined(message) ==>
      ReadStatusCode(e) == Num(400) && ReadName(e) == Str("ParamMissing") &&
      ReadMessage(e) == (if message.Undefined? then Str("Invalid request") else message) &&
      ReadDetail(e) == detail
    ensures !StringOrUndefined(message) ==> ReadStatusCode(e) == Undefined
  {
    BadRequest(BadRequestOptions(Str("ParamMissing"), message, detail))
  }

  /** `serverError()`: 500 'ServerError' 'Internal Server Error' with a null detail. */
  function ServerError(): (e: ErrorFields)
    ensures ReadStatusCode(e) == Num(500)
    ensures ReadName(e) == Str("ServerError")
    ensures ReadMessage(e) == Str("Internal Server Error")
    ensures !Truthy(ReadDetail(e))
  {
    Create(Str("ServerError"), Str("Internal Server Error"), Null, Num(500))
  }

  /** `notFound(m)`: 404 'NotFound' carrying `m` as its message. */
  function NotFound(message: Value): (e: ErrorFields)
    ensures StringOrUndefined(message) ==>
      ReadStatusCode(e) == Num(404) && ReadName(e) == Str("NotFound") &&
      ReadMessage(e) == message && !Truthy(ReadDetail(e))
    ensures !StringOrUndefined(message) ==> ReadStatusCode(e) == Undefined
  {
    Create(Str("NotFound"), message, Null, Num(404))
  }

  /** The body `{status, error: {code, message, detail?}}`; `detail` is an optional key. */
  datatype Envelope = Envelope(status: Value, code: Value, message: Value, detail: Option<Value>)

  /** What `res.status(s).json(body)` sends. */
  datatype Response = Response(httpStatus: Value, body: Envelope)

  /** `sendError(error, res)`: the response it writes for `error`. */
  function SendError(e: ErrorFields): (r: Response)
    ensures r.httpStatus == r.body.status
    ensures r.body.status == (if Truthy(ReadStatusCode(e)) then ReadStatusCode(e) else Num(500))
    ensures r.body.code == (if Truthy(ReadName(e)) then ReadName(e) else Str("ServerError"))
    ensures r.body.message == (if Truthy(ReadMessage(e)) then ReadMessage(e) else Str("Internal Server Error"))
    ensures r.body.detail.Some? <==> Truthy(ReadDetail(e))
    ensures r.body.detail.Some? ==> r.body.detail.value == ReadDetail(e)
  {
    var status := Or(ReadStatusCode(e), Num(500));
    var detail := if Truthy(ReadDetail(e)) then Some(ReadDetail(e)) else None;
    Response(status, Envelope(status, Or(ReadName(e), Str("ServerError")),
                              Or(ReadMessage(e), Str("Internal Server Error")), detail))
  }

  /** The status codes any helper can put in an envelope. */
  predicate HelperStatus(v: Value)
  {
    v == Num(400) || v == Num(404) || v == Num(500)
  }

  /**
    Whatever the arguments, an envelope built from a helper carries 400, 404 or
    500: a rejected argument leaves `statusCode` unset and `sendError` falls back
    to 500. In particular no helper yields 401.
   */
  lemma HelperEnvelopeStatuses(options: BadRequestOptions, m: Value, d: Value)
    ensures HelperStatus(SendError(BadRequest(options)).body.status)
    ensures HelperStatus(SendError(InvalidParam(m)).body.status)
    ensures HelperStatus(SendError(ParamMissing(m, d)).body.status)
    ensures HelperStatus(SendError(ServerError()).body.status)
    ensures HelperStatus(SendError(NotFound(m)).body.status)
  {
  }

  /** The envelope of `paramMissing(m)`. */
  function MissingEnvelope(m: string): Response
  {
    Response(Num(400), Envelope(Num(400), Str("ParamMissing"), Str(m), None))
  }

  /** The envelope of `invalidParam(m)`. */
  function InvalidEnvelope(m: string): Response
  {
    Response(Num(400), Envelope(Num(400), Str("BadRequest"), Str("Invalid parameter"), Some(Str(m))))
  }

  /** The envelopes the routes and validators send, written out. */
  lemma HelperEnvelopes(m: string, d: string)
    requires m != "" && d != ""
    ensures SendError(NotFound(Str(m))) ==
      Response(Num(404), Envelope(Num(404), Str("NotFound"), Str(m), None))
    ensures SendError(ServerError()) ==
      Response(Num(500), Envelope(Num(500), Str("ServerError"), Str("Internal Server Error"), None))
    ensures SendError(BadRequest(DetailOnly(d))) ==
      Response(Num(400), Envelope(Num(400), Str("BadRequest"), Str("Invalid request"), Some(Str(d))))
    ensures SendError(InvalidParam(Str(m))) == InvalidEnvelope(m)
    ensures SendError(ParamMissing(Str(m), Undefined)) == MissingEnvelope(m)
  {
  }

  /** `notFound('')`: the empty message is falsy, so the envelope falls back to the default text. */
  lemma EmptyNotFoundMessage()
    ensures SendError(NotFound(Str(""))).body.message == Str("Internal Server Error")
    ensures SendError(NotFound(Str(""))).body.status == Num(404)
  {
  }

  /**
    The 401 helper that src/app.js:29 and src/middleware/getProfile.js:1 import
    as `unauthorizedError`; src/helper/Errors.js does not define it. This is
    the evidently intended helper, used only for the corrected responses in App.
   */
  function UnauthorizedError(): (e: ErrorFields)
    ensures ReadStatusCode(e) == Num(401)
    ensures ReadName(e) == Str("Unauthorized")
    ensures !HelperStatus(SendError(e).body.status)
  {
    Create(Str("Unauthorized"), Str("Unauthorized"), Null, Num(401))
  }
}
