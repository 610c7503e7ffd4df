/**
  The `CustomError` class of src/helper/CustomError.js. Its constructor checks
  the types of `name`, `message` and `statusCode` and, when one is wrong,
  returns before assigning any of its own fields; `detail` is never checked.
 */
module CustomErrors {

  import opened Js

  /** An own property of the error object: either never assigned, or assigned a value. */
  datatype Slot = Unset | Own(value: Value)

  /** The four own properties the constructor may assign. */
  datatype ErrorFields = ErrorFields(message: Slot, statusCode: Slot, name: Slot, detail: Slot)

  /** The constructor's type guard: it assigns its fields exactly when this holds. */
  predicate ArgumentsAccepted(name: Value, message: Value, statusCode: Value)
  {
    StringOrUndefined(name) && StringOrUndefined(message) && NumberOrUndefined(statusCode)
  }

  // Reading a property: an own property wins. Otherwise `name` and `message`
  // come from Error.prototype ('Error' and ''), and `statusCode` and `detail`
  // are undefined.

  function ReadName(e: ErrorFields): Value
  {
    match e.name
    case Unset => Str("Error")
    case Own(v) => v
  }

  function ReadMessage(e: ErrorFields): Value
  {
    match e.message
    case Unset => Str("")
    case Own(v) => v
  }

  function ReadStatusCode(e: ErrorFields): Value
  {
    match e.statusCode
    case Unset => Undefined
    case Own(v) => v
  }

  function ReadDetail(e: ErrorFields): Value
  {
    match e.detail
    case Unset => Undefined
    case Own(v) => v
  }

  /** The own properties that `new CustomError(name, message, detail, statusCode)` ends up with. */
  function Create(name: Value, message: Value, detail: Value, statusCode: Value): (e: ErrorFields)
    // accepted arguments read back unchanged, whatever `detail` is
    ensures ArgumentsAccepted(name, message, statusCode) ==>
      ReadName(e) == name && ReadMessage(e) == message &&
      ReadStatusCode(e) == statusCode && ReadDetail(e) == detail
    // a rejected argument leaves every property at its inherited value
    ensures !ArgumentsAccepted(name, message, statusCode) ==>
      ReadName(e) == Str("Error") && ReadMessage(e) == Str("") &&
      ReadStatusCode(e) == Undefined && ReadDetail(e) == Undefined
  {
    if ArgumentsAccepted(name, message, statusCode) then
      ErrorFields(Own(message), Own(statusCode), Own(name), Own(detail))
    else
      ErrorFields(Unset, Unset, Unset, Unset)
  }

  class CustomError {
    var message: Slot
    var statusCode: Slot
    var name: Slot
    var detail: Slot

    function Fields(): ErrorFields
      reads this
    {
      ErrorFields(message, statusCode, name, detail)
    }

    /** Assigns the four fields after the type guard, or returns early with none assigned. */
    constructor (name: Value, message: Value, detail: Value, statusCode: Value)
      ensures Fields() == Create(name, message, detail, statusCode)
      ensures !ArgumentsAccepted(name, message, statusCode) ==>
        this.message == Unset && this.statusCode == Unset && this.name == Unset && this.detail == Unset
    {
      this.message, this.statusCode, this.name, this.detail := Unset, Unset, Unset, Unset;
      new;
      if !ArgumentsAccepted(name, message, statusCode) {
        return;
      }
      this.message := Own(message);
      this.statusCode := Own(statusCode);
      this.name := Own(name);
      this.detail := Own(detail);
    }
  }
}
