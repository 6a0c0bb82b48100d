/**
 * The common base of the service's own exceptions: each carries an error
 * code, a non-blank message, a null-free copy of its details and a cause.
 */
module ServiceExceptions {

  import opened JavaLang
  import opened JavaText
  import opened JavaMaps
  import opened ErrorCodes
  import opened ErrorResponses

  /** The throwable an exception wraps, reduced to where it came from. */
  datatype Cause = NoCause | ReadFailure | ResizeFailure | StorageProviderFailure

  /**
   * A constructed exception. `details` holds the entries of the immutable
   * copy the constructor makes; their order carries no meaning.
   */
  datatype ServiceException = ServiceException(errorCode: ErrorCode, message: string, details: seq<Entry>, cause: Cause)

  const ERROR_CODE_NULL_MESSAGE := "errorCode не может быть null"
  /**
   * The message the JVM gives the `NullPointerException` it raises itself when
   * the default message is looked up on a null code (helpful exception
   * messages, on by default since Java 15; the build targets Java 17 and
   * compiles with local variable names).
   */
  const DEFAULT_MESSAGE_NPE_MESSAGE :=
    "Cannot invoke \"io.github.sergeysenin.userservice.exception.code.ErrorCode.getDefaultMessage()\" because \"errorCode\" is null"
  const NULL_KEY_MESSAGE := "details содержит null-ключ"

  function NullValueMessage(key: string): string {
    "details содержит null-значение для ключа '" + key + "'"
  }

  /** Entry `i` is the first, in iteration order, holding a null key or value. */
  predicate IsFirstNullEntry(entries: seq<Entry>, i: int) {
    0 <= i < |entries| && (entries[i].0.None? || entries[i].1.None?)
    && forall j :: 0 <= j < i ==> entries[j].0.Some? && entries[j].1.Some?
  }

  /** The exception the scan of the details raises for entry `e`, which holds a null. */
  function NullEntryException(e: Entry): JavaException
    requires e.0.None? || e.1.None?
  {
    if e.0.None? then NullPointerException(Some(NULL_KEY_MESSAGE))
    else NullPointerException(Some(NullValueMessage(e.0.value)))
  }

  /** The loop over the entries: key first, then value, stopping at the first null. */
  function CheckEntries(entries: seq<Entry>): (r: Outcome<JavaException>)
    ensures r.Pass? <==> !HasNull(entries)
    ensures r.Fail? ==> exists i :: IsFirstNullEntry(entries, i) && r.error == NullEntryException(entries[i])
  {
    if entries == [] then Pass
    else if entries[0].0.None? then Fail(NullPointerException(Some(NULL_KEY_MESSAGE)))
    else if entries[0].1.None? then Fail(NullPointerException(Some(NullValueMessage(entries[0].0.value))))
    else
      var r := CheckEntries(entries[1..]);
      assert forall i :: 1 <= i < |entries| ==> entries[1..][i - 1] == entries[i];
      assert r.Fail? ==> exists i :: IsFirstNullEntry(entries[1..], i) && r.error == NullEntryException(entries[1..][i])
                                     && IsFirstNullEntry(entries, i + 1);
      r
  }

  /** `validateAndCopyDetails`: null or empty gives an empty map, otherwise the entries once none is null. */
  function ValidateAndCopyDetails(details: Option<seq<Entry>>): (r: Result<seq<Entry>, JavaException>)
    ensures r.Success? ==> !HasNull(r.value)
    ensures r.Success? && details.Some? ==> r.value == details.value
    ensures r.Success? <==> details.None? || !HasNull(details.value)
  {
    if details.None? || details.value == [] then Success([])
    else match CheckEntries(details.value)
      case Fail(e) => Failure(e)
      case Pass => Success(details.value)
  }

  /**
   * The constructor every service exception goes through. The message is
   * resolved before the code is checked, so a null code with a null or blank
   * message fails on the default-message lookup (the JVM's own
   * `NullPointerException`), and with a real message on the explicit check.
   */
  function NewServiceException(errorCode: Option<ErrorCode>, message: Option<string>, details: Option<seq<Entry>>,
                               cause: Cause): (r: Result<ServiceException, JavaException>)
    ensures r.Success? <==> errorCode.Some? && (details.None? || !HasNull(details.value))
    ensures errorCode.None? ==>
              r == Failure(NullPointerException(
                     Some(if message.None? || IsBlank(message.value) then DEFAULT_MESSAGE_NPE_MESSAGE else ERROR_CODE_NULL_MESSAGE)))
    ensures errorCode.Some? && details.Some? && HasNull(details.value) ==>
              exists i :: IsFirstNullEntry(details.value, i) && r == Failure(NullEntryException(details.value[i]))
    ensures r.Success? ==> r.value.errorCode == errorCode.value && r.value.cause == cause && !HasNull(r.value.details)
    ensures r.Success? ==> !IsBlank(r.value.message)
    ensures r.Success? && message.Some? && !IsBlank(message.value) ==> r.value.message == message.value
    ensures r.Success? && (message.None? || IsBlank(message.value)) ==> r.value.message == errorCode.value.DefaultMessage()
    ensures r.Success? && details.Some? ==> r.value.details == details.value
  {
    if errorCode.None? then
      if message.None? || IsBlank(message.value) then Failure(NullPointerException(Some(DEFAULT_MESSAGE_NPE_MESSAGE)))
      else Failure(NullPointerException(Some(ERROR_CODE_NULL_MESSAGE)))
    else
      var resolved := ResolvedMessage(errorCode.value, message);
      match ValidateAndCopyDetails(details)
      case Failure(e) => Failure(e)
      case Success(copy) => Success(ServiceException(errorCode.value, resolved, copy, cause))
  }

  /** An exception with a code, a message and a cause, without details. */
  function Raise(errorCode: ErrorCode, message: string, cause: Cause): (e: ServiceException)
    ensures NewServiceException(Some(errorCode), Some(message), None, cause) == Success(e)
    ensures e.errorCode == errorCode && e.cause == cause && e.details == []
    ensures !IsBlank(message) ==> e.message == message
  {
    NewServiceException(Some(errorCode), Some(message), None, cause).value
  }

  /** `toErrorResponse`: the response for the exception's code, message and details, stamped now. */
  function ToErrorResponse(e: ServiceException, now: Timestamp): (r: ErrorResponse)
    requires !HasNull(e.details)
    ensures Of(Some(e.errorCode), Some(e.message), Some(e.details), now) == Success(r)
    ensures r.code == e.errorCode.Code() && r.timestamp == now && r.details == CopyOf(e.details)
  {
    Of(Some(e.errorCode), Some(e.message), Some(e.details), now).value
  }

  /** What the constructor stores reaches the response unchanged: the message and every detail. */
  lemma {:induction false} ResponseKeepsMessageAndDetails(errorCode: ErrorCode, message: Option<string>,
                                                          details: Option<seq<Entry>>, cause: Cause, now: Timestamp)
    requires NewServiceException(Some(errorCode), message, details, cause).Success?
    ensures var e := NewServiceException(Some(errorCode), message, details, cause).value;
            var r := ToErrorResponse(e, now);
            r.code == errorCode.Code() && r.message == e.message
            && forall k :: k in r.details <==>
                 details.Some? && exists i :: 0 <= i < |details.value| && details.value[i].0 == Some(k)
  {
    var e := NewServiceException(Some(errorCode), message, details, cause).value;
    assert !IsBlank(e.message);
  }
}
