/** The audience check applied to every incoming JWT. */
module Audience {

  import opened JavaLang
  import opened JavaText
  import opened Authorization

  const INVALID_TOKEN := "invalid_token"
  const BLANK_AUDIENCE_MESSAGE := "Ожидаемая аудитория не может быть пустой"
  const MISSING_AUDIENCE_PREFIX := "Токен не содержит требуемую аудиторию: "

  /** An OAuth 2.0 error: code, description and URI. */
  datatype OAuth2Error = OAuth2Error(errorCode: string, description: Option<string>, uri: Option<string>)

  datatype TokenValidatorResult = Valid | Invalid(errors: seq<OAuth2Error>)

  datatype AudienceValidator = AudienceValidator(requiredAudience: string)

  /**
   * The constructor as written: a null or blank audience is refused, and the
   * accepted one is stored trimmed.
   */
  function NewAudienceValidator(requiredAudience: Option<string>): (r: Result<AudienceValidator, JavaException>)
    ensures r.Success? <==> requiredAudience.Some? && !IsBlank(requiredAudience.value)
    ensures r.Success? ==> r.value.requiredAudience == Trim(requiredAudience.value)
    ensures r.Failure? ==> r.error == IllegalArgumentException(BLANK_AUDIENCE_MESSAGE)
  {
    if requiredAudience.None? || IsBlank(requiredAudience.value) then
      Failure(IllegalArgumentException(BLANK_AUDIENCE_MESSAGE))
    else Success(AudienceValidator(Trim(requiredAudience.value)))
  }

  /**
   * The check is `isBlank` but the stored value is `trim`: a control
   * character is not blank, yet trims away, so the validator is built with
   * an empty required audience.
   */
  lemma ControlCharacterAudienceIsAccepted()
    ensures NewAudienceValidator(Some("\U{0001}")) == Success(AudienceValidator(""))
  {
    NotBlankButTrimsToEmpty();
  }

  /** The constructor as its message intends: the stored (trimmed) audience is never empty. */
  function NewAudienceValidatorNonEmpty(requiredAudience: Option<string>)
    : (r: Result<AudienceValidator, JavaException>)
    ensures r.Success? <==> requiredAudience.Some? && !IsBlank(requiredAudience.value)
                            && Trim(requiredAudience.value) != ""
    ensures r.Success? ==> r.value.requiredAudience == Trim(requiredAudience.value) && r.value.requiredAudience != ""
    ensures r.Failure? ==> r.error == IllegalArgumentException(BLANK_AUDIENCE_MESSAGE)
  {
    if requiredAudience.None? || IsBlank(requiredAudience.value) || Trim(requiredAudience.value) == "" then
      Failure(IllegalArgumentException(BLANK_AUDIENCE_MESSAGE))
    else Success(AudienceValidator(Trim(requiredAudience.value)))
  }

  /** The two constructors agree on every audience except those that are not blank yet trim to nothing. */
  lemma NonEmptyAgreesOtherwise(requiredAudience: Option<string>)
    requires requiredAudience.Some? ==> IsBlank(requiredAudience.value) || Trim(requiredAudience.value) != ""
    ensures NewAudienceValidatorNonEmpty(requiredAudience) == NewAudienceValidator(requiredAudience)
  {
  }

  /** `validate`: the token passes iff its audience list is present and contains the required audience exactly. */
  function Validate(v: AudienceValidator, token: Jwt): (r: TokenValidatorResult)
    ensures r.Valid? <==> token.audience.Some? && exists i :: 0 <= i < |token.audience.value|
                                                             && token.audience.value[i] == v.requiredAudience
    ensures r.Invalid? ==> r.errors == [OAuth2Error(INVALID_TOKEN, Some(MISSING_AUDIENCE_PREFIX + v.requiredAudience),
                                                    None)]
  {
    if token.audience.Some? && v.requiredAudience in token.audience.value then Valid
    else Invalid([OAuth2Error(INVALID_TOKEN, Some(MISSING_AUDIENCE_PREFIX + v.requiredAudience), None)])
  }

  /** The failure description ends with the required audience, so it can be read back from the error. */
  lemma {:induction false} FailureNamesAudience(v: AudienceValidator, token: Jwt)
    requires Validate(v, token).Invalid?
    ensures var d := Validate(v, token).errors[0].description.value;
            |d| >= |v.requiredAudience| && d[|d| - |v.requiredAudience|..] == v.requiredAudience
  {
    var d := MISSING_AUDIENCE_PREFIX + v.requiredAudience;
    assert d[|MISSING_AUDIENCE_PREFIX|..] == v.requiredAudience;
  }

  /** A token is accepted by the validator built from a padded audience iff it lists the unpadded text. */
  lemma {:induction false} PaddingIsIgnored(audience: string, token: Jwt)
    requires !IsBlank(audience)
    ensures NewAudienceValidator(Some(audience)).Success?
    ensures Validate(NewAudienceValidator(Some(audience)).value, token).Valid?
            <==> token.audience.Some? && Trim(audience) in token.audience.value
  {
  }
}
