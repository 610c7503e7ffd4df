/**
  The request validators of src/middleware/validate.js. Each is an ordered
  chain of checks; the first failing check sends an error envelope, and
  `next()` is called only when no check fails. `isNaN` on strings and
  `Date.parse` are JavaScript built-ins and are passed in as functions.
 */
module Validate {

  import opened Js
  import opened Wrappers
  import opened Errors

  /** What a validator does: call `next()`, or send one error response. */
  datatype Check = Next | Sent(response: Response)

  /** JavaScript `isNaN(v)`: strings are left to `notANumber`; `null` and booleans convert to numbers. */
  predicate IsNaN(v: Value, notANumber: string -> bool)
  {
    match v
    case Undefined => true
    case Null => false
    case Bool(_) => false
    case Num(_) => false
    case Str(s) => notANumber(s)
  }

  /** The chain shared by the id validators and the amount validator: presence, then numeric. */
  function PresentAndNumeric(v: Value, missing: string, invalid: string, notANumber: string -> bool): Check
  {
    if !Truthy(v) then Sent(SendError(ParamMissing(Str(missing), Undefined)))
    else if IsNaN(v, notANumber) then Sent(SendError(InvalidParam(Str(invalid))))
    else Next
  }

  /** `validateContractId`, on `req.params.id`. */
  function ValidateContractId(id: Value, notANumber: string -> bool): (r: Check)
    ensures r == Next <==> Truthy(id) && !IsNaN(id, notANumber)
    ensures !Truthy(id) ==> r == Sent(MissingEnvelope("Contract id is missing"))
    ensures Truthy(id) && IsNaN(id, notANumber) ==> r == Sent(InvalidEnvelope("Contract id should be a number"))
  {
    PresentAndNumeric(id, "Contract id is missing", "Contract id should be a number", notANumber)
  }

  /** `validateJobId`, on `req.params.job_id`. */
  function ValidateJobId(jobId: Value, notANumber: string -> bool): (r: Check)
    ensures r == Next <==> Truthy(jobId) && !IsNaN(jobId, notANumber)
    ensures !Truthy(jobId) ==> r == Sent(MissingEnvelope("Job id is missing"))
    ensures Truthy(jobId) && IsNaN(jobId, notANumber) ==> r == Sent(InvalidEnvelope("Job id should be a number"))
  {
    PresentAndNumeric(jobId, "Job id is missing", "Job id should be a number", notANumber)
  }

  /** `validateUserId`, on `req.params.userId`. */
  function ValidateUserId(userId: Value, notANumber: string -> bool): (r: Check)
    ensures r == Next <==> Truthy(userId) && !IsNaN(userId, notANumber)
    ensures !Truthy(userId) ==> r == Sent(MissingEnvelope("User id is missing"))
    ensures Truthy(userId) && IsNaN(userId, notANumber) ==> r == Sent(InvalidEnvelope("User id should be a number"))
  {
    PresentAndNumeric(userId, "User id is missing", "User id should be a number", notANumber)
  }

  /** `validateAmountToDeposit`, on `req.body.amount_to_deposit`. */
  function ValidateAmountToDeposit(amount: Value, notANumber: string -> bool): (r: Check)
    ensures r == Next <==> Truthy(amount) && !IsNaN(amount, notANumber)
    ensures !Truthy(amount) ==> r == Sent(MissingEnvelope("Amount is missing"))
    ensures Truthy(amount) && IsNaN(amount, notANumber) ==> r == Sent(InvalidEnvelope("Amount should be a number"))
    // a negative number is a truthy number, so it passes
    ensures amount.Num? && amount.n < 0 ==> r == Next
  {
    PresentAndNumeric(amount, "Amount is missing", "Amount should be a number", notANumber)
  }

  /**
    `validateStartAndEndDates`, on `req.query.start` and `req.query.end`.
    `parse` is `Date.parse` (None is NaN); `new Date(s)` parses the same way,
    so the order check compares the two parsed timestamps.
   */
  function ValidateStartAndEndDates(start: Value, end: Value, parse: Value -> Option<int>): (r: Check)
    ensures r == Next <==>
      Truthy(start) && Truthy(end) && parse(start).Some? && parse(end).Some? &&
      parse(start).value <= parse(end).value
    ensures !Truthy(start) || !Truthy(end) ==> r == Sent(MissingEnvelope("Start and end dates are required"))
    ensures (Truthy(start) && Truthy(end) && (parse(start).None? || parse(end).None?)) ==>
      r == Sent(InvalidEnvelope("Start and end dates should be valid ISO string dates"))
    ensures (Truthy(start) && Truthy(end) && parse(start).Some? && parse(end).Some? &&
             parse(start).value > parse(end).value) ==>
      r == Sent(InvalidEnvelope("Start date should be before end date"))
  {
    if !Truthy(start) || !Truthy(end) then
      Sent(SendError(ParamMissing(Str("Start and end dates are required"), Undefined)))
    else if parse(start).None? || parse(end).None? then
      Sent(SendError(InvalidParam(Str("Start and end dates should be valid ISO string dates"))))
    else if parse(start).value > parse(end).value then
      Sent(SendError(InvalidParam(Str("Start date should be before end date"))))
    else
      Next
  }

  /** The shared chain only ever sends a 400. */
  lemma PresentAndNumericRejectsWith400(v: Value, missing: string, invalid: string, notANumber: string -> bool)
    ensures PresentAndNumeric(v, missing, invalid, notANumber).Sent? ==>
      PresentAndNumeric(v, missing, invalid, notANumber).response.httpStatus == Num(400)
  {
  }

  lemma DatesRejectWith400(start: Value, end: Value, parse: Value -> Option<int>)
    ensures ValidateStartAndEndDates(start, end, parse).Sent? ==>
      ValidateStartAndEndDates(start, end, parse).response.httpStatus == Num(400)
  {
  }

  /** Every response a validator sends is a 400. */
  lemma ValidatorsRejectWith400(v: Value, w: Value, notANumber: string -> bool, parse: Value -> Option<int>)
    ensures ValidateContractId(v, notANumber).Sent? ==> ValidateContractId(v, notANumber).response.httpStatus == Num(400)
    ensures ValidateJobId(v, notANumber).Sent? ==> ValidateJobId(v, notANumber).response.httpStatus == Num(400)
    ensures ValidateUserId(v, notANumber).Sent? ==> ValidateUserId(v, notANumber).response.httpStatus == Num(400)
    ensures ValidateAmountToDeposit(v, notANumber).Sent? ==>
      ValidateAmountToDeposit(v, notANumber).response.httpStatus == Num(400)
    ensures ValidateStartAndEndDates(v, w, parse).Sent? ==>
      ValidateStartAndEndDates(v, w, parse).response.httpStatus == Num(400)
  {
    PresentAndNumericRejectsWith400(v, "Contract id is missing", "Contract id should be a number", notANumber);
    PresentAndNumericRejectsWith400(v, "Job id is missing", "Job id should be a number", notANumber);
    PresentAndNumericRejectsWith400(v, "User id is missing", "User id should be a number", notANumber);
    PresentAndNumericRejectsWith400(v, "Amount is missing", "Amount should be a number", notANumber);
    DatesRejectWith400(v, w, parse);
  }
}
