# user-service avatar pipeline, modelled in Dafny

This project models the core of the user service:

- **The avatar pipeline.** It covers validating an uploaded image and deriving its three storage keys (`storagePath/userId/uuid/version.ext`). It covers writing the original, thumbnail and profile versions to the object store and attaching the keys to the user. It also covers serving presigned URLs for the keys and deleting the avatar again.
- **Its supporting parts.** These are the typed avatar settings and the user aggregate's partial updates. They also include the avatar mapper, the JWT access decision (`UserSecurity`, `AudienceValidator`) and the error model: error codes, error responses, the service-exception base and the global exception handler.

`AvatarService`, `S3Service`, `ResourceValidator` and `AvatarFileNameGenerator` are empty stubs in the repository. Their behaviour is fixed by their unit tests, so those four are modelled on what the tests require.

## Structure

Files by area:

- **Java platform:**
  - `java_lang.dfy` (nullable references as `Option`, throwing calls as `Result`, `long`/`int`/`short`);
  - `java_text.dfy` (`isBlank`, `trim`, `toLowerCase`, `indexOf`);
  - `java_numbers.dfy` (`Long.toString`, and `Long.parseLong` over `Character.digit`, round-trip proved);
  - `java_maps.dfy` (`Map.copyOf` and insertion-ordered `LinkedHashMap` with `put` / first-wins insertion).
- **Error model:** `error_code.dfy`, `error_response.dfy`, `service_exception.dfy`, `exception_handler.dfy`.
- **Configuration and entities:**
  - `avatar_properties.dfy` (settings normalisation);
  - `user.dfy` (the `User` class with its in-place updates);
  - `avatar_mapper.dfy` (the mapper).
- **Pipeline components:**
  - `resource_validator.dfy` (the ten ordered checks);
  - `path_generation.dfy` (key layout, and the `AvatarFileNameGenerator` class drawing one UUID per call);
  - `object_store.dfy` (the `S3Service` class over a bucket map, with a log of provider calls);
  - `user_security.dfy`, `audience_validator.dfy`.
- **Avatar orchestrator:**
  - `avatar_service.dfy`: the specification functions `Uploaded`, `Retrieved` and `Deleted`, and the `AvatarService` class whose methods are proved to reach the same state and result.
  - `avatar_service_properties.dfy`: what the three use cases promise.

### How the orchestrator is modelled

- **The world.** Each use case is a function from a `World` to the `World` afterwards plus a result. The world holds the user records, the bucket, the UUID draw count, the storage-prefix read count, and an ordered log of every collaborator call. The call sequences the tests verify can therefore be stated exactly.
- **The setup.** The collaborators are fixed in a `Setup`: the settings, the validator, the storage provider with the calls it refuses, the UUID supply, the resizer and the URL signer.
- **The class.** Each `AvatarService` method ensures `(State(), r) == Spec(Collaborators(), old(State()), ...)`. The lemmas in `AvatarServiceProperties` then spell out what each use case returns, stores, saves and calls.

## Model

Source paths are relative to the repository root. `S` stands for `src/main/java/io/github/sergeysenin/userservice` and `T` for `src/test/java/io/github/sergeysenin/userservice`; each cell writes them out in full.

| member | source | states |
|---|---|---|
| JavaText.Trim | src/main/java/io/github/sergeysenin/userservice/config/avatar/AvatarProperties.java:47 | `trim` yields the longest infix with no code point up to U+0020 at either end; it is empty iff every code point is trimmable |
| JavaText.TrimIdempotent | src/main/java/io/github/sergeysenin/userservice/config/avatar/AvatarProperties.java:58 | trimming twice is trimming once |
| JavaText.ToLower | src/main/java/io/github/sergeysenin/userservice/config/avatar/AvatarProperties.java:62 | `toLowerCase(Locale.ROOT)` keeps the length and lower-cases every position |
| JavaText.ToLowerIdempotent | src/main/java/io/github/sergeysenin/userservice/config/avatar/AvatarProperties.java:62 | lower-casing twice is lower-casing once |
| JavaText.TrimOfLowerTrimmed | src/main/java/io/github/sergeysenin/userservice/config/avatar/AvatarProperties.java:58-62 | a trimmed, lower-cased entry is still trimmed |
| JavaText.NotBlankButTrimsToEmpty | src/main/java/io/github/sergeysenin/userservice/config/security/AudienceValidator.java:15-18 | U+0001 is not blank yet trims to the empty string |
| JavaText.IndexOf | src/test/java/io/github/sergeysenin/userservice/validator/resource/ResourceValidatorTest.java:205-224 | the first position holding the character, or none when it is absent |
| JavaText.LastIndexOf | src/test/java/io/github/sergeysenin/userservice/validator/resource/ResourceValidatorTest.java:156-177 | the last position holding the character, or none when it is absent |
| JavaNumbers.ParseLongOfLongToString | src/main/java/io/github/sergeysenin/userservice/config/security/UserSecurity.java:117-129 | `Long.parseLong(Long.toString(n)) == n` for every `long` |
| JavaNumbers.ParseLong | src/main/java/io/github/sergeysenin/userservice/config/security/UserSecurity.java:117-129 | `Long.parseLong`: a result needs a non-empty text whose every character after the first is a decimal digit (of any script, as `Character.digit` reads it); a first non-digit must be a sign, and a negative result needs `-` |
| JavaNumbers.ParseLongReadsAnyScript | src/main/java/io/github/sergeysenin/userservice/config/security/UserSecurity.java:117-129 | full-width `４２` parses to 42 and Arabic-Indic `-٤٢` to -42 |
| JavaNumbers.LongToString | src/test/java/io/github/sergeysenin/userservice/service/avatar/generator/AvatarFileNameGeneratorTest.java:144-152 | `Long.toString`: non-empty, only ASCII digits and `-`, with a leading `-` exactly for a negative value |
| JavaNumbers.LongToStringInjective | src/test/java/io/github/sergeysenin/userservice/service/avatar/generator/AvatarFileNameGeneratorTest.java:144-152 | distinct user ids have distinct decimal text |
| JavaNumbers.LongToStringHasNoSlash | src/test/java/io/github/sergeysenin/userservice/service/avatar/generator/AvatarFileNameGeneratorTest.java:144-152 | the decimal text of an id never contains `/` |
| JavaMaps.CopyOf | src/main/java/io/github/sergeysenin/userservice/exception/dto/ErrorResponse.java:22 | `Map.copyOf` holds exactly the keys of the entries it copies |
| JavaMaps.CopyOfAt | src/main/java/io/github/sergeysenin/userservice/exception/dto/ErrorResponse.java:22 | with distinct keys, the copy holds every entry's own value |
| JavaMaps.Lookup | src/main/java/io/github/sergeysenin/userservice/exception/handler/GlobalExceptionHandler.java:126-141 | `get` is absent iff no entry has the key, and otherwise returns an entry's value |
| JavaMaps.Put | src/main/java/io/github/sergeysenin/userservice/exception/handler/GlobalExceptionHandler.java:126-141 | `put` appends a new key and keeps the position of an existing one |
| JavaMaps.PutLookup | src/main/java/io/github/sergeysenin/userservice/exception/handler/GlobalExceptionHandler.java:126-141 | after `put(k, v)`, `get(k)` is `v` and every other key reads as before |
| JavaMaps.PutIfAbsent | src/main/java/io/github/sergeysenin/userservice/exception/handler/GlobalExceptionHandler.java:44-50 | the `(existing, replacement) -> existing` merge leaves a present key untouched and appends an absent one |
| JavaMaps.PutIfAbsentLookup | src/main/java/io/github/sergeysenin/userservice/exception/handler/GlobalExceptionHandler.java:44-50 | after first-wins insertion, only a previously absent key changes |
| JavaMaps.PutAllLastWins | src/main/java/io/github/sergeysenin/userservice/exception/handler/GlobalExceptionHandler.java:126-141 | after a run of `put` calls, a key holds the value of its last entry |
| JavaMaps.PutAllIfAbsentFirstWins | src/main/java/io/github/sergeysenin/userservice/exception/handler/GlobalExceptionHandler.java:44-50 | after first-wins insertions, a key holds the value of its first entry |
| JavaMaps.PutAllUntouched | src/main/java/io/github/sergeysenin/userservice/exception/handler/GlobalExceptionHandler.java:44-50 | a key no entry mentions keeps its earlier lookup |
| JavaMaps.PutAllKeepsDistinct | src/main/java/io/github/sergeysenin/userservice/exception/handler/GlobalExceptionHandler.java:126-141 | both kinds of insertion keep keys distinct |
| JavaMaps.PutAllAppend | src/main/java/io/github/sergeysenin/userservice/exception/handler/GlobalExceptionHandler.java:130-139 | the field loop followed by the global loop equals one run over both lists |
| JavaMaps.CopyOfLift | src/main/java/io/github/sergeysenin/userservice/exception/handler/GlobalExceptionHandler.java:117-124 | the copy of a linked map answers every lookup as the linked map does |
| ErrorCodes.FromCodeOfCode | src/main/java/io/github/sergeysenin/userservice/exception/code/ErrorCode.java:13-39 | looking up a constant's code string finds that constant |
| ErrorCodes.CodesAreUnique | src/main/java/io/github/sergeysenin/userservice/exception/code/ErrorCode.java:13-39 | no two constants share a code string |
| ErrorCodes.StatusClasses | src/main/java/io/github/sergeysenin/userservice/exception/code/ErrorCode.java:13-39 | every status is 4xx or 5xx: exactly FILE_STORAGE_ERROR and UNEXPECTED_ERROR answer 500; exactly ENTITY, USER and AVATAR not found answer 404; exactly VALIDATION_FAILED and AVATAR_UPLOAD_FAILED answer 422 |
| ErrorCodes.DefaultMessageNotBlank | src/main/java/io/github/sergeysenin/userservice/exception/code/ErrorCode.java:41-43 | no default message is blank |
| ErrorResponses.NewErrorResponse | src/main/java/io/github/sergeysenin/userservice/exception/dto/ErrorResponse.java:18-23 | a null code or message throws with its message; a null timestamp becomes `now`; null or empty details become the empty map; a null in the details throws; otherwise the details are their copy |
| ErrorResponses.ResolvedMessage | src/main/java/io/github/sergeysenin/userservice/exception/dto/ErrorResponse.java:27-29 | the message given unless it is null or blank, else the default; never blank |
| ErrorResponses.Of | src/main/java/io/github/sergeysenin/userservice/exception/dto/ErrorResponse.java:25-31 | a null code throws; otherwise the code string, the resolved message, `now`, and the copied details |
| ServiceExceptions.CheckEntries | src/main/java/io/github/sergeysenin/userservice/exception/type/base/BaseServiceException.java:49-58 | passes iff no key or value is null; otherwise it fails on the first null entry, with the null-key message or the null-value message naming its key |
| ServiceExceptions.ValidateAndCopyDetails | src/main/java/io/github/sergeysenin/userservice/exception/type/base/BaseServiceException.java:45-60 | null or empty gives no entries; otherwise the entries themselves, iff none holds a null |
| ServiceExceptions.NewServiceException | src/main/java/io/github/sergeysenin/userservice/exception/type/base/BaseServiceException.java:39-43 | the message falls back to the default; a null code throws a `NullPointerException`: with "errorCode не может быть null" when a non-blank message was given, otherwise with the JVM's own message for calling `getDefaultMessage()` on the null `errorCode`; a null detail throws at the first null entry; otherwise code, cause and details are kept |
| ServiceExceptions.Raise | src/main/java/io/github/sergeysenin/userservice/exception/type/base/BaseServiceException.java:23-43 | a detail-free exception is built successfully, keeping its code, cause and non-blank message |
| ServiceExceptions.ToErrorResponse | src/main/java/io/github/sergeysenin/userservice/exception/type/base/BaseServiceException.java:62-64 | the response is `ErrorResponse.of` for the exception's code, message and details |
| ServiceExceptions.ResponseKeepsMessageAndDetails | src/main/java/io/github/sergeysenin/userservice/exception/type/base/BaseServiceException.java:39-64 | the constructed exception's response carries its code string, its message and exactly the given detail keys |
| ExceptionHandling.ResolveBindingMessage | src/main/java/io/github/sergeysenin/userservice/exception/handler/GlobalExceptionHandler.java:143-148 | a non-blank message, else the fallback code, else "Validation error" |
| ExceptionHandling.ResolveConstraintMessage | src/main/java/io/github/sergeysenin/userservice/exception/handler/GlobalExceptionHandler.java:150-156 | a non-blank message, else the message template |
| ExceptionHandling.BindingEntries | src/main/java/io/github/sergeysenin/userservice/exception/handler/GlobalExceptionHandler.java:126-141 | the `put` calls: one per field error keyed by field, then one per global error keyed by object name |
| ExceptionHandling.ExtractBindingResultDetails | src/main/java/io/github/sergeysenin/userservice/exception/handler/GlobalExceptionHandler.java:126-141 | the two loops build the map of the binding `put` calls, with distinct keys |
| ExceptionHandling.PutFieldErrors | src/main/java/io/github/sergeysenin/userservice/exception/handler/GlobalExceptionHandler.java:130-134 | the field-error loop performs one `put` per field error, in order |
| ExceptionHandling.PutGlobalErrors | src/main/java/io/github/sergeysenin/userservice/exception/handler/GlobalExceptionHandler.java:135-139 | the global-error loop continues from the field map with one `put` per global error |
| ExceptionHandling.BindingDetailsLastWins | src/main/java/io/github/sergeysenin/userservice/exception/handler/GlobalExceptionHandler.java:126-141 | a later binding error with the same key overwrites an earlier one |
| ExceptionHandling.ConstraintEntries | src/main/java/io/github/sergeysenin/userservice/exception/handler/GlobalExceptionHandler.java:44-50 | one entry per violation, keyed by property path, with its resolved message |
| ExceptionHandling.ConstraintDetailsFirstWins | src/main/java/io/github/sergeysenin/userservice/exception/handler/GlobalExceptionHandler.java:44-50 | the first violation of a path decides its message |
| ExceptionHandling.ConstraintDetailsKeys | src/main/java/io/github/sergeysenin/userservice/exception/handler/GlobalExceptionHandler.java:44-50 | a path no violation has is absent from the details |
| ExceptionHandling.DatabaseConstraintDetails | src/main/java/io/github/sergeysenin/userservice/exception/handler/GlobalExceptionHandler.java:63-72 | a `constraint` detail exists iff the name is non-null and non-blank, and holds that name |
| ExceptionHandling.BuildResponse | src/main/java/io/github/sergeysenin/userservice/exception/handler/GlobalExceptionHandler.java:117-124 | the code's status and code string, the resolved message, and the copied details or none |
| ExceptionHandling.Handle | src/main/java/io/github/sergeysenin/userservice/exception/handler/GlobalExceptionHandler.java:31-115 | see the handler mapping below |
| ExceptionHandling.HandlerCode | src/main/java/io/github/sergeysenin/userservice/exception/handler/GlobalExceptionHandler.java:31-115 | a service exception answers with its own code; otherwise 422 exactly for the two validation failures, 400 for a bind failure, 409 for a database constraint, 404 for the two not-found kinds, 500 for everything else |
| ExceptionHandling.BindingResponseReportsLastError | src/main/java/io/github/sergeysenin/userservice/exception/handler/GlobalExceptionHandler.java:75-84 | every key of a binding-error response carries the message of the last error with that key |
| AvatarConfig.NewAvatarSizeProperties | src/main/java/io/github/sergeysenin/userservice/config/avatar/AvatarProperties.java:89-94 | succeeds iff `maxSide > 0`, keeping it; otherwise IllegalArgumentException "maxSide должен быть положительным" |
| AvatarConfig.NewSizes | src/main/java/io/github/sergeysenin/userservice/config/avatar/AvatarProperties.java:77-80 | a null thumbnail throws first, then a null profile; otherwise both are kept |
| AvatarConfig.NormalizeStoragePath | src/main/java/io/github/sergeysenin/userservice/config/avatar/AvatarProperties.java:46-52 | null throws; IllegalArgumentException iff the trimmed path is empty; otherwise the trimmed path minus at most one trailing `/` |
| AvatarConfig.LeadingSlashKept | src/main/java/io/github/sergeysenin/userservice/config/avatar/AvatarProperties.java:51 | a leading `/` survives |
| AvatarConfig.NormalizeMimeType | src/main/java/io/github/sergeysenin/userservice/config/avatar/AvatarProperties.java:57-63 | null throws; blank after trim throws IllegalArgumentException; otherwise a non-empty, trimmed, lower-case entry |
| AvatarConfig.NormalizeMimeTypeIdempotent | src/main/java/io/github/sergeysenin/userservice/config/avatar/AvatarProperties.java:57-63 | a normalised entry normalises to itself |
| AvatarConfig.MapThrowing | src/main/java/io/github/sergeysenin/userservice/config/avatar/AvatarProperties.java:56-63 | a throwing `map` stage succeeds iff every element does, position by position, and otherwise fails with the first failure |
| AvatarConfig.NormalizeMimeTypes | src/main/java/io/github/sergeysenin/userservice/config/avatar/AvatarProperties.java:56-63 | the `map` stage over the list: entrywise normalisation, or the first entry's exception |
| AvatarConfig.FirstIndex | src/main/java/io/github/sergeysenin/userservice/config/avatar/AvatarProperties.java:64 | the first occurrence of an element |
| AvatarConfig.Distinct | src/main/java/io/github/sergeysenin/userservice/config/avatar/AvatarProperties.java:64 | `distinct` keeps the same elements, without duplicates, in first-occurrence order |
| AvatarConfig.DistinctOfNoDuplicates | src/main/java/io/github/sergeysenin/userservice/config/avatar/AvatarProperties.java:64 | a duplicate-free list is its own `distinct` |
| AvatarConfig.SanitizeMimeTypes | src/main/java/io/github/sergeysenin/userservice/config/avatar/AvatarProperties.java:54-66 | a null list throws; it succeeds iff every entry normalises; the result is duplicate-free with exactly the normalised entries, in the order of their first occurrence |
| AvatarConfig.SanitizedEntries | src/main/java/io/github/sergeysenin/userservice/config/avatar/AvatarProperties.java:54-66 | every sanitised entry is non-empty, trimmed, lower-case, and a fixed point of normalisation |
| AvatarConfig.NormalizeMimeTypesOfNormalized | src/main/java/io/github/sergeysenin/userservice/config/avatar/AvatarProperties.java:56-63 | already-normalised entries pass the `map` stage unchanged |
| AvatarConfig.AsConfigured | src/main/java/io/github/sergeysenin/userservice/config/avatar/AvatarProperties.java:54 | a sanitised list read back as a configured list without nulls |
| AvatarConfig.SanitizeMimeTypesOfSanitized | src/main/java/io/github/sergeysenin/userservice/config/avatar/AvatarProperties.java:54-66 | a duplicate-free list of normalised entries is its own sanitised form |
| AvatarConfig.SanitizeMimeTypesIdempotent | src/main/java/io/github/sergeysenin/userservice/config/avatar/AvatarProperties.java:54-66 | sanitising the output again returns it unchanged |
| AvatarConfig.NormalizedFixedPoint | src/main/java/io/github/sergeysenin/userservice/config/avatar/AvatarProperties.java:57-63 | a trimmed, lower-case, non-empty entry normalises to itself |
| AvatarConfig.DefaultMimeTypesAreSanitized | src/main/java/io/github/sergeysenin/userservice/config/avatar/AvatarProperties.java:39 | the default allow-list `image/jpeg, image/png, image/webp` is already sanitised |
| AvatarConfig.NewAvatarProperties | src/main/java/io/github/sergeysenin/userservice/config/avatar/AvatarProperties.java:36-44 | the storage path is checked first, then the sizes, then the allow-list, each failure propagated; success holds the normalised values and satisfies `Valid` |
| Users.Prefer | src/main/java/io/github/sergeysenin/userservice/entity/user/User.java:130-153 | a non-null argument wins, a null one keeps the current value |
| Users.ApplyUpdate | src/main/java/io/github/sergeysenin/userservice/entity/user/User.java:120-154 | each field takes its non-null argument or keeps its value; id, avatar and timestamps are untouched |
| Users.ApplyNoChange | src/main/java/io/github/sergeysenin/userservice/entity/user/User.java:120-154 | an all-null update changes nothing |
| Users.ApplyUpdateIdempotent | src/main/java/io/github/sergeysenin/userservice/entity/user/User.java:120-154 | repeating an update has no further effect |
| Users.ApplyUpdateCompose | src/main/java/io/github/sergeysenin/userservice/entity/user/User.java:120-154 | two updates equal one taking the later non-null arguments |
| Users.User.CreateUser | src/main/java/io/github/sergeysenin/userservice/entity/user/User.java:94-118 | the given fields are copied; `active` is true when null; id and timestamps are unset |
| Users.User.UpdateProfile | src/main/java/io/github/sergeysenin/userservice/entity/user/User.java:120-154 | the new state is `ApplyUpdate` of the old one |
| Users.User.UpdateAvatar | src/main/java/io/github/sergeysenin/userservice/entity/user/User.java:156-162 | only the avatar changes, to the argument (null clears it); `hasAvatar` holds iff it is non-null |
| Users.User.HasAvatar | src/main/java/io/github/sergeysenin/userservice/entity/user/User.java:156-158 | true exactly when the user holds an avatar reference |
| AvatarMapping.ToDto | src/main/java/io/github/sergeysenin/userservice/mapper/avatar/impl/ManualAvatarMapper.java:13-23 | null iff null; each key copied into the same-named field |
| AvatarMapping.ToEntity | src/main/java/io/github/sergeysenin/userservice/mapper/avatar/impl/ManualAvatarMapper.java:26-36 | null iff null; each field copied back |
| AvatarMapping.ToDtoOfToEntity | src/main/java/io/github/sergeysenin/userservice/mapper/avatar/impl/ManualAvatarMapper.java:13-36 | `toDto(toEntity(p))` equals `p` as a record (all three paths), and null maps to null |
| AvatarMapping.ToEntityOfToDto | src/main/java/io/github/sergeysenin/userservice/mapper/avatar/impl/ManualAvatarMapper.java:13-36 | `toEntity(toDto(a))` is a new avatar with the same three paths as `a` (field-wise equal; the entity declares no `equals`), and null maps to null |
| Authorization.NewUserSecurity | src/main/java/io/github/sergeysenin/userservice/config/security/UserSecurity.java:25-30 | a null or blank claim name throws IllegalArgumentException; otherwise it is kept |
| Authorization.UserIdClaimValue | src/main/java/io/github/sergeysenin/userservice/config/security/UserSecurity.java:105-112 | the configured claim; `sub` when that is absent and is not `sub` itself; else nothing |
| Authorization.ExtractUserId | src/main/java/io/github/sergeysenin/userservice/config/security/UserSecurity.java:105-133 | a number is taken as is; text is `Long.parseLong`, which reads decimal digits of every script and gives nothing for text it refuses; a missing or other claim gives nothing |
| Authorization.HasAdminRole | src/main/java/io/github/sergeysenin/userservice/config/security/UserSecurity.java:98-103 | true iff the authorities are non-null and one is exactly `ROLE_ADMIN` |
| Authorization.ResolveContext | src/main/java/io/github/sergeysenin/userservice/config/security/UserSecurity.java:78-96 | a context iff the authentication is an authenticated JWT with a readable user id; it holds that id and the admin flag |
| Authorization.CanAccessUserResource | src/main/java/io/github/sergeysenin/userservice/config/security/UserSecurity.java:32-59 | denied for a null id or without context |
| Authorization.AccessIsAdminOrOwner | src/main/java/io/github/sergeysenin/userservice/config/security/UserSecurity.java:32-76 | access iff the id is non-null and the caller is admin or owner |
| Authorization.IsAdmin | src/main/java/io/github/sergeysenin/userservice/config/security/UserSecurity.java:61-66 | true exactly for an authenticated JWT whose user id can be read and which holds `ROLE_ADMIN` |
| Authorization.IsOwner | src/main/java/io/github/sergeysenin/userservice/config/security/UserSecurity.java:68-76 | true exactly for a non-null id equal to the user id an authenticated JWT names, whatever its roles |
| Authorization.UserContext.IsOwner | src/main/java/io/github/sergeysenin/userservice/config/security/UserSecurity.java:137-139 | the requested id equals the token's id by value |
| Authorization.AccessByRole | src/main/java/io/github/sergeysenin/userservice/config/security/UserSecurity.java:46-58 | an admin reaches every user; a non-admin reaches exactly the id its token names |
| Authorization.NoContextDeniesEverything | src/main/java/io/github/sergeysenin/userservice/config/security/UserSecurity.java:79-86 | null, unauthenticated and non-JWT authentications are neither admin nor owner, and are denied |
| Authorization.TextClaimOfId | src/main/java/io/github/sergeysenin/userservice/config/security/UserSecurity.java:114-129 | an id given as decimal text resolves like the number |
| Authorization.SubjectFallback | src/main/java/io/github/sergeysenin/userservice/config/security/UserSecurity.java:106-112 | `sub` decides only when the configured claim is absent |
| Audience.NewAudienceValidator | src/main/java/io/github/sergeysenin/userservice/config/security/AudienceValidator.java:14-19 | as written: accepted iff non-null and not blank, then stored trimmed; otherwise IllegalArgumentException |
| Audience.ControlCharacterAudienceIsAccepted | src/main/java/io/github/sergeysenin/userservice/config/security/AudienceValidator.java:15-18 | `"\u0001"` is accepted and stored as `""` |
| Audience.NewAudienceValidatorNonEmpty | src/main/java/io/github/sergeysenin/userservice/config/security/AudienceValidator.java:14-19 | corrected: the same checks plus a non-empty trimmed value, so the stored audience is never empty |
| Audience.NonEmptyAgreesOtherwise | src/main/java/io/github/sergeysenin/userservice/config/security/AudienceValidator.java:14-19 | both constructors agree except on non-blank audiences that trim to nothing |
| Audience.Validate | src/main/java/io/github/sergeysenin/userservice/config/security/AudienceValidator.java:22-34 | valid iff the audience list is non-null and contains the required audience; the failure is `invalid_token` with a description naming it |
| Audience.FailureNamesAudience | src/main/java/io/github/sergeysenin/userservice/config/security/AudienceValidator.java:28-33 | the failure description ends with the required audience |
| Audience.PaddingIsIgnored | src/main/java/io/github/sergeysenin/userservice/config/security/AudienceValidator.java:18-26 | a validator built from padded text accepts iff the token lists the trimmed text |
| ResourceValidation.MessageNotBlank | src/test/java/io/github/sergeysenin/userservice/validator/resource/ResourceValidatorTest.java:39-48 | none of the ten failure messages is blank |
| ResourceValidation.CanonicalExtension | src/test/java/io/github/sergeysenin/userservice/validator/resource/ResourceValidatorTest.java:275-343 | supported iff jpg, jpeg, png or webp; `jpeg` is `jpg` |
| ResourceValidation.CanonicalOfName | src/test/java/io/github/sergeysenin/userservice/validator/resource/ResourceValidatorTest.java:326-343 | every canonical extension is its own canonical form |
| ResourceValidation.MimeTableAgreesWithSynonyms | src/test/java/io/github/sergeysenin/userservice/validator/resource/ResourceValidatorTest.java:345-362 | the subtype fallback makes the MIME table agree with the synonym table |
| ResourceValidation.ParseMime | src/test/java/io/github/sergeysenin/userservice/validator/resource/ResourceValidatorTest.java:205-245 | a type and a subtype, both non-empty and free of `/`, or nothing exactly for malformed text |
| ResourceValidation.FilenameExtension | src/test/java/io/github/sergeysenin/userservice/validator/resource/ResourceValidatorTest.java:156-177 | the non-empty text after the last `.`; none iff there is no dot or it is last |
| ResourceValidation.Inspect | src/test/java/io/github/sergeysenin/userservice/validator/resource/ResourceValidatorTest.java:71-362 | presence, the empty flag and size, blank name and type, the trimmed lower-case MIME type and its split, the name's extension and both canonical extensions, each read from the file |
| ResourceValidation.GetValidatedExtension | src/test/java/io/github/sergeysenin/userservice/validator/resource/ResourceValidatorTest.java:71-362 | on success the type is allowed and is `image/*`, and both the MIME subtype and the file name give the returned extension |
| ResourceValidation.FirstFailingCheck | src/test/java/io/github/sergeysenin/userservice/validator/resource/ResourceValidatorTest.java:71-319 | the reported error is the first check, in test order, that fails; all earlier checks pass |
| ResourceValidation.SucceedsIffAllChecksPass | src/test/java/io/github/sergeysenin/userservice/validator/resource/ResourceValidatorTest.java:71-362 | success iff all ten checks pass |
| ResourceValidation.DecisionSucceedsIffAllPass | src/test/java/io/github/sergeysenin/userservice/validator/resource/ResourceValidatorTest.java:71-362 | the same, on the inspected file |
| ResourceValidation.EarlyFailureIgnoresAllowList | src/test/java/io/github/sergeysenin/userservice/validator/resource/ResourceValidatorTest.java:71-245 | failures before the allow-list check are the same for any allow-list |
| ResourceValidation.DecisionIgnoresAllowListEarly | src/test/java/io/github/sergeysenin/userservice/validator/resource/ResourceValidatorTest.java:71-245 | the same, on the inspected file |
| ResourceValidation.EmptyAllowListRejectsAll | src/test/java/io/github/sergeysenin/userservice/validator/resource/ResourceValidatorTest.java:247-268 | an empty allow-list rejects every file |
| ResourceValidation.ValidationException | src/test/java/io/github/sergeysenin/userservice/validator/resource/ResourceValidatorTest.java:39-48 | the failure is VALIDATION_FAILED with the check's own message |
| AvatarPaths.Version.Name | src/test/java/io/github/sergeysenin/userservice/service/avatar/generator/AvatarFileNameGeneratorTest.java:68-83 | `original`, `thumbnail` and `profile`, with no separator |
| AvatarPaths.VersionNamesDistinct | src/test/java/io/github/sergeysenin/userservice/service/avatar/generator/AvatarFileNameGeneratorTest.java:68-83 | the names differ iff the versions do |
| AvatarPaths.UuidHasNoSeparator | src/test/java/io/github/sergeysenin/userservice/service/avatar/generator/AvatarFileNameGeneratorTest.java:144-152 | UUID text contains no `/` |
| AvatarPaths.Join | src/test/java/io/github/sergeysenin/userservice/service/avatar/generator/AvatarFileNameGeneratorTest.java:144-152 | `String.join` places the separator between neighbours |
| AvatarPaths.JoinFour | src/test/java/io/github/sergeysenin/userservice/service/avatar/generator/AvatarFileNameGeneratorTest.java:144-152 | four parts joined, spelled out |
| AvatarPaths.BuildPathLayout | src/test/java/io/github/sergeysenin/userservice/service/avatar/generator/AvatarFileNameGeneratorTest.java:144-152 | a key is `storagePath/userId/uuid/version.ext` |
| AvatarPaths.BuildPathInjective | src/test/java/io/github/sergeysenin/userservice/service/avatar/generator/AvatarFileNameGeneratorTest.java:114-152 | under one prefix, a key fixes user id, UUID, version and extension |
| AvatarPaths.PathsFor | src/test/java/io/github/sergeysenin/userservice/service/avatar/generator/AvatarFileNameGeneratorTest.java:68-83 | all three keys are present |
| AvatarPaths.PathsForDistinct | src/test/java/io/github/sergeysenin/userservice/service/avatar/generator/AvatarFileNameGeneratorTest.java:144-152 | the three keys of one upload are pairwise distinct |
| AvatarPaths.DistinctUuidsDisjointPaths | src/test/java/io/github/sergeysenin/userservice/service/avatar/generator/AvatarFileNameGeneratorTest.java:114-133 | different UUIDs share no key, whatever the user and extension |
| AvatarPaths.AvatarFileNameGenerator.constructor | src/main/java/io/github/sergeysenin/userservice/service/avatar/generator/AvatarFileNameGenerator.java:18-29 | nothing drawn or read yet |
| AvatarPaths.AvatarFileNameGenerator.GenerateFilePaths | src/test/java/io/github/sergeysenin/userservice/service/avatar/generator/AvatarFileNameGeneratorTest.java:53-137 | the three keys of the next UUID; exactly one UUID drawn and one prefix read per call |
| ObjectStorage.Rejection | src/test/java/io/github/sergeysenin/userservice/service/s3/S3ServiceTest.java:93-145 | a pre-check failure: FILE_STORAGE_ERROR with its message |
| ObjectStorage.ProviderFailure | src/test/java/io/github/sergeysenin/userservice/service/s3/S3ServiceTest.java:176-198 | a provider failure: FILE_STORAGE_ERROR, the operation prefix plus the key, and the cause kept |
| ObjectStorage.Store | src/test/java/io/github/sergeysenin/userservice/service/s3/S3ServiceTest.java:93-198 | blank key, then missing or empty content, rejected with no call; otherwise one `putObject` to the bucket that writes the bytes or fails with prefix plus key |
| ObjectStorage.Remove | src/test/java/io/github/sergeysenin/userservice/service/s3/S3ServiceTest.java:205-265 | blank key rejected with no call; otherwise one `deleteObject` that removes the key or fails with prefix plus key |
| ObjectStorage.Presign | src/test/java/io/github/sergeysenin/userservice/service/s3/S3ServiceTest.java:272-343 | blank key rejected with no call; otherwise one presign request with the configured duration that returns the signer's URL or fails with prefix plus key; objects untouched |
| ObjectStorage.StoreOverwrites | src/test/java/io/github/sergeysenin/userservice/service/s3/S3ServiceTest.java:147-174 | a second write of a key leaves the second bytes |
| ObjectStorage.RemoveIdempotent | src/test/java/io/github/sergeysenin/userservice/service/s3/S3ServiceTest.java:223-241 | deleting twice equals deleting once |
| ObjectStorage.RemoveAfterStore | src/test/java/io/github/sergeysenin/userservice/service/s3/S3ServiceTest.java:147-241 | write then delete leaves the key absent and the rest unchanged |
| ObjectStorage.RejectedRequestsSendNothing | src/test/java/io/github/sergeysenin/userservice/service/s3/S3ServiceTest.java:93-288 | the provider is called iff the pre-checks pass |
| ObjectStorage.S3Service.constructor | src/test/java/io/github/sergeysenin/userservice/service/s3/S3ServiceTest.java:53-68 | the configured provider, the given objects and an empty call log |
| ObjectStorage.S3Service.StoreObject | src/test/java/io/github/sergeysenin/userservice/service/s3/S3ServiceTest.java:93-198 | the new state and outcome are those of `Store` |
| ObjectStorage.S3Service.RemoveObject | src/test/java/io/github/sergeysenin/userservice/service/s3/S3ServiceTest.java:205-265 | the new state and outcome are those of `Remove` |
| ObjectStorage.S3Service.GeneratePresignedUrl | src/test/java/io/github/sergeysenin/userservice/service/s3/S3ServiceTest.java:272-343 | the new state and URL are those of `Presign`; objects unchanged |
| AvatarOrchestration.UserNotFoundException | src/main/java/io/github/sergeysenin/userservice/service/user/UserService.java:66-69 | USER_NOT_FOUND with "Пользователь не найден: id=" and the id |
| AvatarOrchestration.AvatarNotFoundException | src/test/java/io/github/sergeysenin/userservice/service/avatar/AvatarServiceTest.java:335-355 | AVATAR_NOT_FOUND with "Аватар пользователя не найден: id=" and the id |
| AvatarOrchestration.ReadException | src/test/java/io/github/sergeysenin/userservice/service/avatar/AvatarServiceTest.java:223-257 | AVATAR_UPLOAD_FAILED with "Ошибка чтения файла аватара", keeping the read failure as its cause |
| AvatarOrchestration.ResizeException | src/main/java/io/github/sergeysenin/userservice/service/resource/ImageResourceService.java:42 | AVATAR_UPLOAD_FAILED with "Не удалось изменить размер изображения" |
| AvatarOrchestration.AvatarService.constructor | src/test/java/io/github/sergeysenin/userservice/service/avatar/AvatarServiceTest.java:48-74 | the given collaborators and users, and an empty call log |
| AvatarOrchestration.AvatarService.PrepareUpload | src/test/java/io/github/sergeysenin/userservice/service/avatar/AvatarServiceTest.java:111-257 | load, validate, read, then stage, ending as `Prepare` says |
| AvatarOrchestration.AvatarService.StageUpload | src/test/java/io/github/sergeysenin/userservice/service/avatar/AvatarServiceTest.java:111-165 | map the old avatar, generate keys, resize, ending as `Stage` says |
| AvatarOrchestration.AvatarService.ResizeUpload | src/test/java/io/github/sergeysenin/userservice/service/avatar/AvatarServiceTest.java:111-165 | two resizes, to the thumbnail side then the profile side, ending as `Resize` says |
| AvatarOrchestration.AvatarService.WriteGeneration | src/test/java/io/github/sergeysenin/userservice/service/avatar/AvatarServiceTest.java:111-165 | three writes that stop at the first failure, ending as `StoreGeneration` says |
| AvatarOrchestration.AvatarService.SaveRecord | src/test/java/io/github/sergeysenin/userservice/service/avatar/AvatarServiceTest.java:111-165 | the record is saved with its update time |
| AvatarOrchestration.AvatarService.RemoveKeysQuietly | src/test/java/io/github/sergeysenin/userservice/service/avatar/AvatarServiceTest.java:167-221 | the loop removes each usable key best-effort, ending as `RemoveAllQuietly` says |
| AvatarOrchestration.AvatarService.UploadAvatar | src/test/java/io/github/sergeysenin/userservice/service/avatar/AvatarServiceTest.java:111-257 | the state and result are those of `Uploaded` |
| AvatarOrchestration.AvatarService.PresignKey | src/test/java/io/github/sergeysenin/userservice/service/avatar/AvatarServiceTest.java:304-333 | no URL and no call for a null or blank key; otherwise one presign |
| AvatarOrchestration.AvatarService.GetAvatar | src/test/java/io/github/sergeysenin/userservice/service/avatar/AvatarServiceTest.java:264-355 | the state and result are those of `Retrieved` |
| AvatarOrchestration.AvatarService.DeleteAvatar | src/test/java/io/github/sergeysenin/userservice/service/avatar/AvatarServiceTest.java:362-415 | the state and result are those of `Deleted` |
| AvatarServiceProperties.RemovalCalls | src/test/java/io/github/sergeysenin/userservice/service/avatar/AvatarServiceTest.java:209-211 | one remove call per usable key, never for a blank or null one |
| AvatarServiceProperties.RemovalEffect | src/test/java/io/github/sergeysenin/userservice/service/avatar/AvatarServiceTest.java:167-221 | best-effort removal changes only the bucket and the log; accepted deletes take their keys out |
| AvatarServiceProperties.RemovalOfUnusableKeys | src/test/java/io/github/sergeysenin/userservice/service/avatar/AvatarServiceTest.java:209-211 | removing only blank or null keys changes nothing at all |
| AvatarServiceProperties.RetrievalWithoutAvatar | src/test/java/io/github/sergeysenin/userservice/service/avatar/AvatarServiceTest.java:335-355 | no avatar: AvatarNotFoundException naming the id, with the lookup the only call |
| AvatarServiceProperties.RetrievalSucceeds | src/test/java/io/github/sergeysenin/userservice/service/avatar/AvatarServiceTest.java:264-333 | `hasAvatar=true`; one URL per usable key, none for blank or null keys; one presign per usable key in order; mapper never called; nothing else changes |
| AvatarServiceProperties.RetrievalSucceedsIff | src/test/java/io/github/sergeysenin/userservice/service/avatar/AvatarServiceTest.java:264-355 | succeeds iff the user exists, has an avatar and every usable key is signed; never changes a user or an object |
| AvatarServiceProperties.DeletionWithoutAvatar | src/test/java/io/github/sergeysenin/userservice/service/avatar/AvatarServiceTest.java:395-415 | an unknown user or one without an avatar fails with its exception, with no storage call |
| AvatarServiceProperties.DeletionSucceeds | src/test/java/io/github/sergeysenin/userservice/service/avatar/AvatarServiceTest.java:362-393 | `removed=true` with the old keys; each usable key removed; the avatar cleared and saved; calls in order |
| AvatarServiceProperties.DeleteTwiceFails | src/test/java/io/github/sergeysenin/userservice/service/avatar/AvatarServiceTest.java:362-415 | a second delete raises AvatarNotFoundException |
| AvatarServiceProperties.GeneratedKeysUsable | src/test/java/io/github/sergeysenin/userservice/service/avatar/generator/AvatarFileNameGeneratorTest.java:144-152 | every generated key passes the store's blank-key check |
| AvatarServiceProperties.UploadRejectedEarly | src/test/java/io/github/sergeysenin/userservice/service/avatar/AvatarServiceTest.java:223-257 | unknown user, invalid file or unreadable bytes: exactly the calls up to that point, then the exception; no key drawn, no resize, no store, no save |
| AvatarServiceProperties.PrepareHandsOver | src/test/java/io/github/sergeysenin/userservice/service/avatar/AvatarServiceTest.java:111-165 | a valid, readable file is staged after exactly three calls |
| AvatarServiceProperties.StageSucceeds | src/test/java/io/github/sergeysenin/userservice/service/avatar/AvatarServiceTest.java:111-165 | one UUID drawn; mapper, generator and the two resizes called in order; nothing written |
| AvatarServiceProperties.WritesAccepted | src/test/java/io/github/sergeysenin/userservice/service/avatar/AvatarServiceTest.java:146-156 | original, thumbnail and profile bytes land under their keys, in that order |
| AvatarServiceProperties.UploadComposes | src/test/java/io/github/sergeysenin/userservice/service/avatar/AvatarServiceTest.java:111-221 | after the writes: attach and save, then remove the previous keys |
| AvatarServiceProperties.UploadSucceeds | src/test/java/io/github/sergeysenin/userservice/service/avatar/AvatarServiceTest.java:111-221 | the response carries the id, the new keys and the save time; the record holds the new avatar; three objects written; previous usable keys removed; the exact call sequence |
| AvatarServiceProperties.PrepareWritesNothing | src/test/java/io/github/sergeysenin/userservice/service/avatar/AvatarServiceTest.java:223-257 | the first phase changes neither users nor bucket |
| AvatarServiceProperties.WritesPassIff | src/test/java/io/github/sergeysenin/userservice/service/avatar/AvatarServiceTest.java:146-156 | the writes pass iff the provider accepts all three |
| AvatarServiceProperties.UploadFailureKeepsRecords | src/test/java/io/github/sergeysenin/userservice/service/avatar/AvatarServiceTest.java:223-257 | a failed upload saves no record; one failing before the writes leaves the bucket as it was |
| AvatarServiceProperties.UploadSucceedsIff | src/test/java/io/github/sergeysenin/userservice/service/avatar/AvatarServiceTest.java:111-257 | success iff known user, valid readable file, two resizes and three accepted writes |
| AvatarServiceProperties.ReplacedGenerationIsGone | src/test/java/io/github/sergeysenin/userservice/service/avatar/AvatarServiceTest.java:167-221 | replacing an avatar keeps the three new objects and removes every deletable old key |
| AvatarServiceProperties.WrittenKeysSurvive | src/test/java/io/github/sergeysenin/userservice/service/avatar/AvatarServiceTest.java:167-221 | written keys outside the removed set keep their bytes |
| AvatarServiceProperties.UploadThenRetrieve | src/test/java/io/github/sergeysenin/userservice/service/avatar/AvatarServiceTest.java:111-302 | right after an upload, `getAvatar` signs the three new keys |
| AvatarServiceProperties.UploadThenDelete | src/test/java/io/github/sergeysenin/userservice/service/avatar/AvatarServiceTest.java:111-393 | deleting right after an upload reports exactly the uploaded keys |

The `ExceptionHandling.Handle` row covers the mapping from exceptions to codes:

- method-argument and constraint violations answer VALIDATION_FAILED with the default message and their details;
- bind errors answer BINDING_ERROR;
- database constraint violations answer CONSTRAINT_VIOLATION with a `constraint` detail exactly for a non-blank name;
- entity-not-found and no-such-element answer ENTITY_NOT_FOUND with the exception's message (the default when it is blank) and no details;
- a service exception answers its own code's status and its `toErrorResponse`;
- any other exception answers UNEXPECTED_ERROR with the default message.

## Left out

- **Image resizing** (`ImageResourceService`, Thumbnailator) is the resizer function of `Setup`. It returns bytes, or `None` for the resize failure.
- **AWS SDK, S3 configuration and the signature itself.** The provider is a bucket map, a set of refused calls and a signer function.
- **`UUID.randomUUID`** is the `uuidSupply` function. Distinct UUIDs are a hypothesis of `DistinctUuidsDisjointPaths` and `ReplacedGenerationIsGone`, not a property of the supply.
- **Clocks.** `Instant.now()` and `@UpdateTimestamp` are `now` parameters.
- **Persistence.** The user repository, `UserService` and transactions are the `users` map. `save` stamps `updatedAt` with the save time.
- **Upload response timestamp.** It is the save time. The upload test's mocked `save` returns a user whose `updatedAt` is null, so the test's null timestamp is not modelled.
- **Framework plumbing.** This covers Spring wiring, controllers, the security filter configuration and JSON error writing. It also covers the bean-validation annotations on records and DTOs, and logging, including the logged denial reasons, which are kept only as a datatype.
- **Locale.** `toLowerCase(Locale.ROOT)` is modelled on the ASCII letters only.
- **Number claims.** `Number.longValue()` on non-integral claim values is left out. A claim is an integral number, a string, or other.
- **Compensating deletes.** Deleting already-written objects when a write or the save fails part-way is not modelled, because no code or test states it. A failed upload leaves whatever was written.
- **Write order.** The three writes are ordered original, thumbnail, profile, and each removal pass uses the same order. The tests verify each call but not their relative order.
- **The validator.** The orchestrator sees it as a function of `Setup`, as its tests mock it. A null file never reaches the byte read, because the validator rejects it; `Content` reads it as unreadable.
- **Blank original keys.** A user with an avatar whose original key is blank is treated like any other `hasAvatar` user. No rule is invented for it.
- **Records with no behaviour.** Request and response DTOs are plain datatypes. `UserProfilePicture`, `AvatarFileIdsDto` and `ResourceValidationResult` are not modelled.
- **Country resident list.** A `Country`'s list of residents is not modelled.
- **Object identity.** Entities are values here. `toEntity` builds a fresh `UserProfileAvatar`, and that class declares no `equals`, so the mapper round trip holds field by field, not by Java `equals`.
- **Unicode tables.** `Character.digit` is modelled by the decimal-digit runs of the Basic Multilingual Plane in Unicode 13.0, the version Java 17 uses. `Long.parseLong` reads UTF-16 units, so a supplementary-plane digit is never a digit.
- **Causes.** A cause is reduced to where it came from: read, resize or storage.
- **The original code of a not-found exception.** The `entityMessage` passed to the handler is the exception's message. Its original code is not modelled.
- `Authorization.CanAccessUserResource`: its own ensures state only the two denials. The full admin-or-owner iff is `Authorization.AccessIsAdminOrOwner`.
- `ResourceValidation.GetValidatedExtension`: its own ensures state what success implies. The check order is `FirstFailingCheck`, and the iff is `SucceedsIffAllChecksPass`.
- `JavaMaps.CopyOf`: its own ensures state the key set. Values, under the distinct keys every Java map has, are `CopyOfAt`.
- `AvatarConfig.NewAvatarProperties`: it requires the sizes, when present, to have positive sides. The `Sizes` and `AvatarSizeProperties` constructors guarantee this, so an unchecked `Sizes` is not considered.
- **`COUNTRY_NOT_FOUND`.** `CountryNotFoundException` refers to this code, but the enum does not declare it. It is not added.

## Findings

| source | as written | input that shows it | evidently intended | confidence | as-written member | corrected member |
|---|---|---|---|---|---|---|
| src/main/java/io/github/sergeysenin/userservice/config/security/AudienceValidator.java:15-18 | the audience is tested with `isBlank`, which ignores controls such as U+0001, but is stored with `trim`, which removes them | `new AudienceValidator("\u0001")` is accepted and stores the empty audience | the stored (trimmed) audience is never empty, as the message "Ожидаемая аудитория не может быть пустой" (the expected audience cannot be empty) says | not executed | Audience.ControlCharacterAudienceIsAccepted | Audience.NewAudienceValidatorNonEmpty |

The corrected constructor is proved to agree with the written one on every other input (`Audience.NonEmptyAgreesOtherwise`). No other part of the model builds an audience validator.
