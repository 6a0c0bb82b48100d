/**
 * The access decision for user resources: a caller may act on a user id when
 * its JWT names that user (the owner) or when it holds `ROLE_ADMIN`. The user
 * id is read from a configurable claim, with `sub` as the fallback.
 */
module Authorization {

  import opened JavaLang
  import opened JavaText
  import opened JavaNumbers

  const ROLE_ADMIN := "ROLE_ADMIN"
  const SUBJECT_CLAIM := "sub"
  const BLANK_CLAIM_MESSAGE := "Название claim с идентификатором пользователя не может быть пустым"

  /** The value of a JWT claim: an integral number, a string, or anything else. */
  datatype ClaimValue = NumberClaim(number: Long) | TextClaim(text: string) | OtherClaim

  /** A decoded JWT: its claims (an absent claim reads as null) and its audience list. */
  datatype Jwt = Jwt(claims: map<string, ClaimValue>, audience: Option<seq<string>>)

  /** A Spring Security `Authentication`, reduced to what the decision reads. */
  datatype Authentication =
    | JwtAuthentication(authenticated: bool, token: Jwt, authorities: Option<seq<Option<string>>>)
    | OtherAuthentication(authenticated: bool, className: string)
  {
    predicate IsAuthenticated() {
      authenticated
    }
  }

  /** Who the token says the caller is. */
  datatype UserContext = UserContext(userId: Long, admin: bool) {
    /** `isOwner`: the requested id is the token's id, compared by value (`Objects.equals` on boxed longs). */
    function IsOwner(requestedUserId: Long): (r: bool)
      ensures r <==> requestedUserId == userId
    {
      userId == requestedUserId
    }
  }

  /** Why no context could be resolved (only logged). */
  datatype DenialReason = NotAuthenticated | UnsupportedAuthentication(className: string) | NoUserId

  datatype ContextResolution = Allowed(context: UserContext) | Denied(reason: DenialReason)

  /** The component, configured with the name of the claim holding the user id. */
  datatype UserSecurity = UserSecurity(userIdClaim: string)

  /** The constructor: a null or blank claim name is refused. */
  function NewUserSecurity(userIdClaim: Option<string>): (r: Result<UserSecurity, JavaException>)
    ensures r.Success? <==> userIdClaim.Some? && !IsBlank(userIdClaim.value)
    ensures r.Success? ==> r.value.userIdClaim == userIdClaim.value
    ensures r.Failure? ==> r.error == IllegalArgumentException(BLANK_CLAIM_MESSAGE)
  {
    if userIdClaim.None? || IsBlank(userIdClaim.value) then Failure(IllegalArgumentException(BLANK_CLAIM_MESSAGE))
    else Success(UserSecurity(userIdClaim.value))
  }

  function Claim(token: Jwt, name: string): Option<ClaimValue> {
    if name in token.claims then Some(token.claims[name]) else None
  }

  /** The claim consulted: the configured one, or `sub` when it is absent and is not itself `sub`. */
  function UserIdClaimValue(sec: UserSecurity, token: Jwt): (r: Option<ClaimValue>)
    ensures sec.userIdClaim in token.claims ==> r == Some(token.claims[sec.userIdClaim])
    ensures sec.userIdClaim !in token.claims && sec.userIdClaim != SUBJECT_CLAIM ==> r == Claim(token, SUBJECT_CLAIM)
    ensures sec.userIdClaim !in token.claims && sec.userIdClaim == SUBJECT_CLAIM ==> r.None?
  {
    var value := Claim(token, sec.userIdClaim);
    if value.None? && sec.userIdClaim != SUBJECT_CLAIM then Claim(token, SUBJECT_CLAIM) else value
  }

  /** `extractUserId`: a number is taken as it is, a string is parsed as a `long`, anything else gives nothing. */
  function ExtractUserId(sec: UserSecurity, token: Jwt): (r: Option<Long>)
    ensures UserIdClaimValue(sec, token).None? ==> r.None?
    ensures UserIdClaimValue(sec, token) == Some(OtherClaim) ==> r.None?
    ensures forall n: Long :: UserIdClaimValue(sec, token) == Some(NumberClaim(n)) ==> r == Some(n)
    ensures forall t :: UserIdClaimValue(sec, token) == Some(TextClaim(t)) ==> r == ParseLong(t)
  {
    match UserIdClaimValue(sec, token)
    case None => None
    case Some(NumberClaim(n)) => Some(n)
    case Some(TextClaim(t)) => ParseLong(t)
    case Some(OtherClaim) => None
  }

  /** `hasAdminRole`: some authority is exactly `ROLE_ADMIN`; null authorities grant nothing. */
  function HasAdminRole(authorities: Option<seq<Option<string>>>): (r: bool)
    ensures r <==> authorities.Some? && exists i :: 0 <= i < |authorities.value| && authorities.value[i] == Some(ROLE_ADMIN)
  {
    authorities.Some? && Some(ROLE_ADMIN) in authorities.value
  }

  /** `resolveContext`: an authenticated JWT whose user id can be read, together with its admin flag. */
  function ResolveContext(sec: UserSecurity, authentication: Option<Authentication>): (r: ContextResolution)
    ensures r.Allowed? <==> authentication.Some? && authentication.value.JwtAuthentication?
                            && authentication.value.authenticated
                            && ExtractUserId(sec, authentication.value.token).Some?
    ensures r.Allowed? ==> r.context == UserContext(ExtractUserId(sec, authentication.value.token).value,
                                                     HasAdminRole(authentication.value.authorities))
  {
    if authentication.None? || !authentication.value.IsAuthenticated() then Denied(NotAuthenticated)
    else match authentication.value
      case OtherAuthentication(_, className) => Denied(UnsupportedAuthentication(className))
      case JwtAuthentication(_, token, authorities) =>
        match ExtractUserId(sec, token)
        case None => Denied(NoUserId)
        case Some(id) => Allowed(UserContext(id, HasAdminRole(authorities)))
  }

  /** `isAdmin`: the context resolves and carries the admin role; without a context the answer is no. */
  function IsAdmin(sec: UserSecurity, authentication: Option<Authentication>): (r: bool)
    ensures r <==> authentication.Some? && authentication.value.JwtAuthentication?
                   && authentication.value.authenticated
                   && ExtractUserId(sec, authentication.value.token).Some?
                   && HasAdminRole(authentication.value.authorities)
  {
    var c := ResolveContext(sec, authentication);
    c.Allowed? && c.context.admin
  }

  /** `isOwner`: a non-null id equal to the one an authenticated JWT names; roles play no part. */
  function IsOwner(sec: UserSecurity, userId: Option<Long>, authentication: Option<Authentication>): (r: bool)
    ensures r <==> userId.Some? && authentication.Some? && authentication.value.JwtAuthentication?
                   && authentication.value.authenticated
                   && ExtractUserId(sec, authentication.value.token) == userId
  {
    var c := ResolveContext(sec, authentication);
    userId.Some? && c.Allowed? && c.context.IsOwner(userId.value)
  }

  /** `canAccessUserResource`: deny a null id, deny without context, then admit an admin or the owner. */
  function CanAccessUserResource(sec: UserSecurity, userId: Option<Long>, authentication: Option<Authentication>)
    : (r: bool)
    ensures userId.None? ==> !r
    ensures ResolveContext(sec, authentication).Denied? ==> !r
  {
    if userId.None? then false
    else match ResolveContext(sec, authentication)
      case Denied(_) => false
      case Allowed(context) =>
        if context.admin then true
        else if context.IsOwner(userId.value) then true
        else false
  }

  /** Access is granted exactly to an admin or the owner, for a non-null user id. */
  lemma {:induction false} AccessIsAdminOrOwner(sec: UserSecurity, userId: Option<Long>,
                                                authentication: Option<Authentication>)
    ensures CanAccessUserResource(sec, userId, authentication)
            <==> userId.Some? && (IsAdmin(sec, authentication) || IsOwner(sec, userId, authentication))
  {
  }

  /** An admin reaches every user; a non-admin reaches exactly the user its token names. */
  lemma {:induction false} AccessByRole(sec: UserSecurity, userId: Long, token: Jwt,
                                        authorities: Option<seq<Option<string>>>)
    requires ExtractUserId(sec, token).Some?
    ensures var auth := Some(JwtAuthentication(true, token, authorities));
            && (HasAdminRole(authorities) ==> CanAccessUserResource(sec, Some(userId), auth))
            && (!HasAdminRole(authorities) ==>
                  (CanAccessUserResource(sec, Some(userId), auth) <==> ExtractUserId(sec, token) == Some(userId)))
  {
  }

  /** Without a resolvable context, nobody is admin, owner or admitted. */
  lemma {:induction false} NoContextDeniesEverything(sec: UserSecurity, userId: Option<Long>,
                                                     authentication: Option<Authentication>)
    requires authentication.None? || !authentication.value.authenticated || authentication.value.OtherAuthentication?
    ensures !IsAdmin(sec, authentication) && !IsOwner(sec, userId, authentication)
    ensures !CanAccessUserResource(sec, userId, authentication)
  {
  }

  /** A token carrying the user id as decimal text resolves to that id, as one carrying the number does. */
  lemma {:induction false} TextClaimOfId(sec: UserSecurity, claims: map<string, ClaimValue>, audience: Option<seq<string>>,
                                         id: Long)
    requires sec.userIdClaim in claims && claims[sec.userIdClaim] == TextClaim(LongToString(id))
    ensures ExtractUserId(sec, Jwt(claims, audience)) == Some(id)
    ensures ExtractUserId(sec, Jwt(claims[sec.userIdClaim := NumberClaim(id)], audience)) == Some(id)
  {
    ParseLongOfLongToString(id);
  }

  /** The `sub` fallback applies only when the configured claim is absent; a present claim decides alone. */
  lemma {:induction false} SubjectFallback(sec: UserSecurity, token: Jwt, subject: ClaimValue)
    requires sec.userIdClaim != SUBJECT_CLAIM
    ensures sec.userIdClaim !in token.claims ==>
              ExtractUserId(sec, Jwt(token.claims[SUBJECT_CLAIM := subject], token.audience))
              == ExtractUserId(UserSecurity(SUBJECT_CLAIM), Jwt(token.claims[SUBJECT_CLAIM := subject], token.audience))
    ensures sec.userIdClaim in token.claims ==>
              ExtractUserId(sec, Jwt(token.claims[SUBJECT_CLAIM := subject], token.audience)) == ExtractUserId(sec, token)
  {
  }
}
