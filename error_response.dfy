/**
 * The JSON error body every failed request is answered with: a code, a
 * message, a timestamp and a map of details.
 */
module ErrorResponses {

  import opened JavaLang
  import opened JavaText
  import opened JavaMaps
  import opened ErrorCodes

  datatype ErrorResponse = ErrorResponse(code: string, message: string, timestamp: Timestamp, details: map<string, string>)

  const CODE_NULL_MESSAGE := "code не может быть null"
  const MESSAGE_NULL_MESSAGE := "message не может быть null"
  const ERROR_CODE_NULL_MESSAGE := "errorCode не может быть null"

  /**
   * The record's canonical constructor. `now` is the instant `Instant.now()`
   * returns during the call; a map that `Map.copyOf` rejects (a null key or
   * value) raises a `NullPointerException` without a message.
   */
  function NewErrorResponse(code: Option<string>, message: Option<string>, timestamp: Option<Timestamp>,
                            details: Option<seq<Entry>>, now: Timestamp): (r: Result<ErrorResponse, JavaException>)
    ensures code.None? ==> r == Failure(NullPointerException(Some(CODE_NULL_MESSAGE)))
    ensures code.Some? && message.None? ==> r == Failure(NullPointerException(Some(MESSAGE_NULL_MESSAGE)))
    ensures r.Success? <==> code.Some? && message.Some? && (details.None? || details.value == [] || !HasNull(details.value))
    ensures r.Failure? && code.Some? && message.Some? ==> r.error == NullPointerException(None)
    ensures r.Success? ==> r.value.code == code.value && r.value.message == message.value
    ensures r.Success? ==> r.value.timestamp == if timestamp.Some? then timestamp.value else now
    ensures r.Success? ==> forall k :: k in r.value.details <==>
              details.Some? && exists i :: 0 <= i < |details.value| && details.value[i].0 == Some(k)
    ensures r.Success? && (details.None? || details.value == []) ==> r.value.details == map[]
    ensures r.Success? && details.Some? ==> r.value.details == CopyOf(details.value)
  {
    if code.None? then Failure(NullPointerException(Some(CODE_NULL_MESSAGE)))
    else if message.None? then Failure(NullPointerException(Some(MESSAGE_NULL_MESSAGE)))
    else
      var ts := if timestamp.Some? then timestamp.value else now;
      if details.None? || details.value == [] then Success(ErrorResponse(code.value, message.value, ts, map[]))
      else if HasNull(details.value) then Failure(NullPointerException(None))
      else Success(ErrorResponse(code.value, message.value, ts, CopyOf(details.value)))
  }

  /** The message a response carries: the given one unless it is null or blank, else the code's default. */
  function ResolvedMessage(errorCode: ErrorCode, message: Option<string>): (m: string)
    ensures !IsBlank(m)
    ensures message.Some? && !IsBlank(message.value) ==> m == message.value
  {
    DefaultMessageNotBlank(errorCode);
    if message.None? || IsBlank(message.value) then errorCode.DefaultMessage() else message.value
  }

  /** `ErrorResponse.of`: a response for `errorCode`, stamped now. */
  function Of(errorCode: Option<ErrorCode>, message: Option<string>, details: Option<seq<Entry>>, now: Timestamp)
    : (r: Result<ErrorResponse, JavaException>)
    ensures errorCode.None? ==> r == Failure(NullPointerException(Some(ERROR_CODE_NULL_MESSAGE)))
    ensures r.Success? <==> errorCode.Some? && (details.None? || !HasNull(details.value))
    ensures r.Success? ==> r.value.code == errorCode.value.Code() && r.value.timestamp == now
    ensures r.Success? ==> !IsBlank(r.value.message)
    ensures r.Success? && message.Some? && !IsBlank(message.value) ==> r.value.message == message.value
    ensures r.Success? && (message.None? || IsBlank(message.value)) ==> r.value.message == errorCode.value.DefaultMessage()
    ensures r.Success? && details.Some? ==> r.value.details == CopyOf(details.value)
    ensures r.Success? && details.None? ==> r.value.details == map[]
  {
    if errorCode.None? then Failure(NullPointerException(Some(ERROR_CODE_NULL_MESSAGE)))
    else
      var code := errorCode.value;
      NewErrorResponse(Some(code.Code()), Some(ResolvedMessage(code, message)), None, details, now)
  }
}
