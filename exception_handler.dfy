/**
 * The application-wide translation of escaped exceptions into error
 * responses: which error code each kind of exception is answered with, and
 * which details accompany it.
 */
module ExceptionHandling {

  import opened JavaLang
  import opened JavaText
  import opened JavaMaps
  import opened ErrorCodes
  import opened ErrorResponses
  import opened ServiceExceptions

  datatype FieldError = FieldError(field: string, defaultMessage: Option<string>, code: Option<string>)
  datatype ObjectError = ObjectError(objectName: string, defaultMessage: Option<string>, code: Option<string>)
  datatype BindingResult = BindingResult(fieldErrors: seq<FieldError>, globalErrors: seq<ObjectError>)

  /** A bean-validation violation; `messageTemplate` is the constraint's (never null) template. */
  datatype ConstraintViolation = ConstraintViolation(propertyPath: string, message: Option<string>, messageTemplate: string)

  /**
   * An exception that reached the handler, tagged with the handler method the
   * framework selects for it (the one declared for its most specific type).
   * Violations are listed in the iteration order of their set.
   */
  datatype HandledException =
    | MethodArgumentNotValid(bindingResult: BindingResult)
    | ConstraintViolations(violations: seq<ConstraintViolation>)
    | DatabaseConstraintViolation(constraintName: Option<string>)
    | BindFailure(bindingResult: BindingResult)
    | EntityNotFoundFailure(entityMessage: Option<string>)
    | NoSuchElement(elementMessage: Option<string>)
    | ServiceFailure(exception: ServiceException)
    | OtherRuntimeException
    | OtherException

  /** The HTTP status and body of a handler's answer. */
  datatype ResponseEntity = ResponseEntity(status: int, body: ErrorResponse)

  const VALIDATION_ERROR_FALLBACK := "Validation error"
  const CONSTRAINT_DETAIL_KEY := "constraint"

  /** The message a binding error is reported with. */
  function ResolveBindingMessage(message: Option<string>, fallback: Option<string>): (r: string)
    ensures message.Some? && !IsBlank(message.value) ==> r == message.value
    ensures (message.None? || IsBlank(message.value)) && fallback.Some? ==> r == fallback.value
    ensures (message.None? || IsBlank(message.value)) && fallback.None? ==> r == VALIDATION_ERROR_FALLBACK
  {
    if message.Some? && !IsBlank(message.value) then message.value
    else if fallback.Some? then fallback.value
    else VALIDATION_ERROR_FALLBACK
  }

  /** The message a constraint violation is reported with. */
  function ResolveConstraintMessage(v: ConstraintViolation): (r: string)
    ensures v.message.Some? && !IsBlank(v.message.value) ==> r == v.message.value
    ensures v.message.None? || IsBlank(v.message.value) ==> r == v.messageTemplate
  {
    if v.message.Some? && !IsBlank(v.message.value) then v.message.value else v.messageTemplate
  }

  /** The `put` calls for the field errors. */
  function FieldEntries(b: BindingResult): (r: seq<(string, string)>)
    ensures |r| == |b.fieldErrors|
    ensures forall i :: 0 <= i < |b.fieldErrors| ==>
              r[i] == (b.fieldErrors[i].field, ResolveBindingMessage(b.fieldErrors[i].defaultMessage, b.fieldErrors[i].code))
  {
    seq(|b.fieldErrors|, i requires 0 <= i < |b.fieldErrors| =>
          (b.fieldErrors[i].field, ResolveBindingMessage(b.fieldErrors[i].defaultMessage, b.fieldErrors[i].code)))
  }

  /** The `put` calls for the global errors. */
  function GlobalEntries(b: BindingResult): (r: seq<(string, string)>)
    ensures |r| == |b.globalErrors|
    ensures forall i :: 0 <= i < |b.globalErrors| ==>
              r[i] == (b.globalErrors[i].objectName,
                       ResolveBindingMessage(b.globalErrors[i].defaultMessage, b.globalErrors[i].code))
  {
    seq(|b.globalErrors|, i requires 0 <= i < |b.globalErrors| =>
          (b.globalErrors[i].objectName, ResolveBindingMessage(b.globalErrors[i].defaultMessage, b.globalErrors[i].code)))
  }

  /** The `put` calls for the binding result: field errors first, then global errors. */
  function BindingEntries(b: BindingResult): (r: seq<(string, string)>)
    ensures |r| == |b.fieldErrors| + |b.globalErrors|
    ensures forall i :: 0 <= i < |b.fieldErrors| ==>
              r[i] == (b.fieldErrors[i].field, ResolveBindingMessage(b.fieldErrors[i].defaultMessage, b.fieldErrors[i].code))
    ensures forall i :: 0 <= i < |b.globalErrors| ==>
              r[|b.fieldErrors| + i] == (b.globalErrors[i].objectName,
                                         ResolveBindingMessage(b.globalErrors[i].defaultMessage, b.globalErrors[i].code))
  {
    FieldEntries(b) + GlobalEntries(b)
  }

  /** The details map `extractBindingResultDetails` builds. */
  function BindingDetails(b: BindingResult): LinkedMap {
    PutAll([], BindingEntries(b))
  }

  /** `extractBindingResultDetails`: one `put` per field error, then one per global error. */
  method ExtractBindingResultDetails(b: BindingResult) returns (details: LinkedMap)
    ensures details == BindingDetails(b)
    ensures DistinctKeys(details)
  {
    details := PutFieldErrors(b);
    details := PutGlobalErrors(b, details);
    PutAllAppend([], FieldEntries(b), GlobalEntries(b));
    PutAllKeepsDistinct([], BindingEntries(b));
  }

  /** The field-error loop. */
  method PutFieldErrors(b: BindingResult) returns (details: LinkedMap)
    ensures details == PutAll([], FieldEntries(b))
  {
    ghost var entries := FieldEntries(b);
    details := [];
    var i := 0;
    while i < |b.fieldErrors|
      invariant 0 <= i <= |b.fieldErrors|
      invariant details == PutAll([], entries[..i])
    {
      var fieldError := b.fieldErrors[i];
      PutAllStep([], entries, i);
      details := Put(details, fieldError.field, ResolveBindingMessage(fieldError.defaultMessage, fieldError.code));
      i := i + 1;
    }
    assert entries[..i] == entries;
  }

  /** The global-error loop, continuing from the map the field errors built. */
  method PutGlobalErrors(b: BindingResult, fieldDetails: LinkedMap) returns (details: LinkedMap)
    ensures details == PutAll(fieldDetails, GlobalEntries(b))
  {
    ghost var entries := GlobalEntries(b);
    details := fieldDetails;
    var j := 0;
    while j < |b.globalErrors|
      invariant 0 <= j <= |b.globalErrors|
      invariant details == PutAll(fieldDetails, entries[..j])
    {
      var objectError := b.globalErrors[j];
      PutAllStep(fieldDetails, entries, j);
      details := Put(details, objectError.objectName, ResolveBindingMessage(objectError.defaultMessage, objectError.code));
      j := j + 1;
    }
    assert entries[..j] == entries;
  }

  /** A later binding error for the same key overwrites an earlier one. */
  lemma BindingDetailsLastWins(b: BindingResult, i: nat)
    requires i < |BindingEntries(b)|
    requires forall j :: i < j < |BindingEntries(b)| ==> BindingEntries(b)[j].0 != BindingEntries(b)[i].0
    ensures Lookup(BindingDetails(b), BindingEntries(b)[i].0) == Some(BindingEntries(b)[i].1)
  {
    PutAllLastWins([], BindingEntries(b), i);
  }

  /** The entries the `toMap` collector receives, in the violations' iteration order. */
  function ConstraintEntries(violations: seq<ConstraintViolation>): (r: seq<(string, string)>)
    ensures |r| == |violations|
    ensures forall i :: 0 <= i < |violations| ==> r[i] == (violations[i].propertyPath, ResolveConstraintMessage(violations[i]))
  {
    seq(|violations|, i requires 0 <= i < |violations| => (violations[i].propertyPath, ResolveConstraintMessage(violations[i])))
  }

  /** The details of a constraint-violation response: keyed by property path, the first violation of a path wins. */
  function ConstraintDetails(violations: seq<ConstraintViolation>): LinkedMap {
    PutAllIfAbsent([], ConstraintEntries(violations))
  }

  lemma ConstraintDetailsFirstWins(violations: seq<ConstraintViolation>, i: nat)
    requires i < |violations|
    requires forall j :: 0 <= j < i ==> violations[j].propertyPath != violations[i].propertyPath
    ensures Lookup(ConstraintDetails(violations), violations[i].propertyPath) == Some(ResolveConstraintMessage(violations[i]))
  {
    PutAllIfAbsentFirstWins([], ConstraintEntries(violations), i);
  }

  lemma ConstraintDetailsKeys(violations: seq<ConstraintViolation>, path: string)
    requires forall j :: 0 <= j < |violations| ==> violations[j].propertyPath != path
    ensures Lookup(ConstraintDetails(violations), path).None?
  {
    PutAllUntouched([], ConstraintEntries(violations), path);
  }

  /** The details a database constraint violation is reported with: the constraint's name when it has one, else none. */
  method DatabaseConstraintDetails(constraintName: Option<string>) returns (details: Option<LinkedMap>)
    ensures details.Some? <==> constraintName.Some? && !IsBlank(constraintName.value)
    ensures details.Some? ==> details.value == [(CONSTRAINT_DETAIL_KEY, constraintName.value)]
  {
    var collected: LinkedMap := [];
    if constraintName.Some? && !IsBlank(constraintName.value) {
      collected := Put(collected, CONSTRAINT_DETAIL_KEY, constraintName.value);
    }
    details := if collected == [] then None else Some(collected);
  }

  /** `buildResponse`: the response for `errorCode`, with its status. */
  function BuildResponse(errorCode: ErrorCode, message: Option<string>, details: Option<LinkedMap>, now: Timestamp)
    : (r: ResponseEntity)
    ensures r.status == errorCode.HttpStatus() && r.body.code == errorCode.Code() && r.body.timestamp == now
    ensures message.Some? && !IsBlank(message.value) ==> r.body.message == message.value
    ensures message.None? || IsBlank(message.value) ==> r.body.message == errorCode.DefaultMessage()
    ensures details.None? ==> r.body.details == map[]
    ensures details.Some? ==> r.body.details == CopyOf(Lift(details.value))
  {
    var javaDetails := if details.Some? then Some(Lift(details.value)) else None;
    ResponseEntity(errorCode.HttpStatus(), Of(Some(errorCode), message, javaDetails, now).value)
  }

  /** The error code each handler answers with: a service exception keeps its own code, every other kind has one fixed code. */
  function HandlerCode(e: HandledException): (r: ErrorCode)
    ensures e.ServiceFailure? ==> r == e.exception.errorCode
    ensures !e.ServiceFailure? ==> (r.HttpStatus() == 422 <==> e.MethodArgumentNotValid? || e.ConstraintViolations?)
    ensures !e.ServiceFailure? ==> (r.HttpStatus() == 400 <==> e.BindFailure?)
    ensures !e.ServiceFailure? ==> (r.HttpStatus() == 409 <==> e.DatabaseConstraintViolation?)
    ensures !e.ServiceFailure? ==> (r.HttpStatus() == 404 <==> e.EntityNotFoundFailure? || e.NoSuchElement?)
    ensures !e.ServiceFailure? ==> (r.HttpStatus() == 500 <==> e.OtherRuntimeException? || e.OtherException?)
  {
    match e
    case MethodArgumentNotValid(_) => ValidationFailed
    case ConstraintViolations(_) => ValidationFailed
    case DatabaseConstraintViolation(_) => ErrorCode.ConstraintViolation
    case BindFailure(_) => BindingError
    case EntityNotFoundFailure(_) => EntityNotFound
    case NoSuchElement(_) => EntityNotFound
    case ServiceFailure(ex) => ex.errorCode
    case OtherRuntimeException => UnexpectedError
    case OtherException => UnexpectedError
  }

  /** The handler methods, dispatched on the kind of exception. */
  method Handle(e: HandledException, now: Timestamp) returns (r: ResponseEntity)
    requires e.ServiceFailure? ==> !HasNull(e.exception.details)
    ensures r.status == HandlerCode(e).HttpStatus() && r.body.code == HandlerCode(e).Code()
    ensures r.body.timestamp == now && !IsBlank(r.body.message)
    ensures e.MethodArgumentNotValid? || e.BindFailure? ==>
              r.body.message == HandlerCode(e).DefaultMessage() && r.body.details == CopyOf(Lift(BindingDetails(e.bindingResult)))
    ensures e.ConstraintViolations? ==>
              r.body.message == ValidationFailed.DefaultMessage() && r.body.details == CopyOf(Lift(ConstraintDetails(e.violations)))
    ensures e.DatabaseConstraintViolation? ==>
              r.body.message == ErrorCode.ConstraintViolation.DefaultMessage()
              && (CONSTRAINT_DETAIL_KEY in r.body.details <==> e.constraintName.Some? && !IsBlank(e.constraintName.value))
              && (CONSTRAINT_DETAIL_KEY in r.body.details ==> r.body.details == map[CONSTRAINT_DETAIL_KEY := e.constraintName.value])
              && (CONSTRAINT_DETAIL_KEY !in r.body.details ==> r.body.details == map[])
    ensures e.EntityNotFoundFailure? && e.entityMessage.Some? && !IsBlank(e.entityMessage.value) ==>
              r.body.message == e.entityMessage.value && r.body.details == map[]
    ensures e.NoSuchElement? && e.elementMessage.Some? && !IsBlank(e.elementMessage.value) ==>
              r.body.message == e.elementMessage.value && r.body.details == map[]
    ensures e.EntityNotFoundFailure? && (e.entityMessage.None? || IsBlank(e.entityMessage.value)) ==>
              r.body.message == EntityNotFound.DefaultMessage() && r.body.details == map[]
    ensures e.NoSuchElement? && (e.elementMessage.None? || IsBlank(e.elementMessage.value)) ==>
              r.body.message == EntityNotFound.DefaultMessage() && r.body.details == map[]
    ensures e.ServiceFailure? ==> r.body == ToErrorResponse(e.exception, now)
    ensures e.OtherRuntimeException? || e.OtherException? ==>
              r.body.message == UnexpectedError.DefaultMessage() && r.body.details == map[]
  {
    DefaultMessageNotBlank(HandlerCode(e));
    match e
    case MethodArgumentNotValid(b) =>
      var details := ExtractBindingResultDetails(b);
      r := BuildResponse(ValidationFailed, None, Some(details), now);
    case ConstraintViolations(vs) =>
      r := BuildResponse(ValidationFailed, None, Some(ConstraintDetails(vs)), now);
    case DatabaseConstraintViolation(name) =>
      var details := DatabaseConstraintDetails(name);
      r := BuildResponse(ErrorCode.ConstraintViolation, None, details, now);
      if details.Some? {
        assert Lift(details.value) == [(Some(CONSTRAINT_DETAIL_KEY), Some(name.value))];
        assert CopyOf(Lift(details.value)) == map[CONSTRAINT_DETAIL_KEY := name.value] by {
          assert Lift(details.value)[..0] == [];
        }
      }
    case BindFailure(b) =>
      var details := ExtractBindingResultDetails(b);
      r := BuildResponse(BindingError, None, Some(details), now);
    case EntityNotFoundFailure(message) =>
      r := BuildResponse(EntityNotFound, message, None, now);
    case NoSuchElement(message) =>
      r := BuildResponse(EntityNotFound, message, None, now);
    case ServiceFailure(ex) =>
      var body := ToErrorResponse(ex, now);
      r := ResponseEntity(ex.errorCode.HttpStatus(), body);
    case OtherRuntimeException =>
      r := BuildResponse(UnexpectedError, None, None, now);
    case OtherException =>
      r := BuildResponse(UnexpectedError, None, None, now);
  }

  /** End to end: a binding-error response reports, for every key, the message of the last error with that key. */
  lemma {:induction false} BindingResponseReportsLastError(b: BindingResult, i: nat, now: Timestamp)
    requires i < |BindingEntries(b)|
    requires forall j :: i < j < |BindingEntries(b)| ==> BindingEntries(b)[j].0 != BindingEntries(b)[i].0
    ensures var body := BuildResponse(BindingError, None, Some(BindingDetails(b)), now).body;
            BindingEntries(b)[i].0 in body.details && body.details[BindingEntries(b)[i].0] == BindingEntries(b)[i].1
  {
    PutAllKeepsDistinct([], BindingEntries(b));
    BindingDetailsLastWins(b, i);
    CopyOfLift(BindingDetails(b), BindingEntries(b)[i].0);
  }
}
