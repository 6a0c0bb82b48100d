/**
 * The avatar orchestrator: upload, retrieve and delete a user's avatar over
 * the user record store, the validator, the image resizer, the key generator
 * and the object store.
 *
 * Each use case is specified by a function from the state of all the
 * collaborators (a `World`) to the state afterwards and the result; the
 * `AvatarService` class performs the same steps one call at a time and is
 * proved to end in that state. The world records every call made to a
 * collaborator, in order, so that the call sequences of the use cases can be
 * stated.
 */
module AvatarOrchestration {

  import opened JavaLang
  import opened JavaText
  import opened JavaNumbers
  import opened ErrorCodes
  import opened ServiceExceptions
  import opened Users
  import opened AvatarMapping
  import opened AvatarConfig
  import opened ResourceValidation
  import opened AvatarPaths
  import opened ObjectStorage

  const USER_NOT_FOUND_PREFIX := "Пользователь не найден: id="
  const AVATAR_NOT_FOUND_PREFIX := "Аватар пользователя не найден: id="
  const READ_FAILURE_MESSAGE := "Ошибка чтения файла аватара"
  const RESIZE_FAILURE_MESSAGE := "Не удалось изменить размер изображения"

  /** `UserNotFoundException` raised by the user record store for an unknown id. */
  function UserNotFoundException(userId: Long): (e: ServiceException)
    ensures e.errorCode == ErrorCode.UserNotFound && e.cause == NoCause
    ensures e.message == USER_NOT_FOUND_PREFIX + LongToString(userId)
  {
    assert (USER_NOT_FOUND_PREFIX + LongToString(userId))[0] == '\U{041f}';
    Raise(ErrorCode.UserNotFound, USER_NOT_FOUND_PREFIX + LongToString(userId), NoCause)
  }

  /** `AvatarNotFoundException` for a user without an avatar. */
  function AvatarNotFoundException(userId: Long): (e: ServiceException)
    ensures e.errorCode == ErrorCode.AvatarNotFound && e.cause == NoCause
    ensures e.message == AVATAR_NOT_FOUND_PREFIX + LongToString(userId)
  {
    assert (AVATAR_NOT_FOUND_PREFIX + LongToString(userId))[0] == '\U{0410}';
    Raise(ErrorCode.AvatarNotFound, AVATAR_NOT_FOUND_PREFIX + LongToString(userId), NoCause)
  }

  /** The `AvatarUploadException` for bytes that cannot be read, keeping the I/O failure as its cause. */
  function ReadException(): (e: ServiceException)
    ensures e.errorCode == AvatarUploadFailed && e.message == READ_FAILURE_MESSAGE && e.cause == ReadFailure
  {
    assert !IsWhitespace(READ_FAILURE_MESSAGE[0]);
    Raise(AvatarUploadFailed, READ_FAILURE_MESSAGE, ReadFailure)
  }

  /** The `AvatarUploadException` the resizer raises when it cannot decode or encode the image. */
  function ResizeException(): (e: ServiceException)
    ensures e.errorCode == AvatarUploadFailed && e.message == RESIZE_FAILURE_MESSAGE && e.cause == ResizeFailure
  {
    assert !IsWhitespace(RESIZE_FAILURE_MESSAGE[0]);
    Raise(AvatarUploadFailed, RESIZE_FAILURE_MESSAGE, ResizeFailure)
  }

  /** A call the orchestrator makes to one of its collaborators. */
  datatype Interaction =
    | LoadUser(userId: Long)
    | ValidateFile(file: Option<MultipartFile>)
    | ReadBytes
    | MapToDto(avatar: Option<UserProfileAvatar>)
    | GeneratePaths(userId: Long, extension: string)
    | ResizeImage(content: Bytes, maxSide: Int32, extension: string)
    | StoreObjectCall(storeKey: Option<string>, content: Bytes)
    | MapToEntity(paths: AvatarObjectPaths)
    | SaveUser(user: UserState)
    | RemoveObjectCall(key: string)
    | PresignCall(key: string)

  /**
   * Everything the use cases read and change: the persisted users, the
   * bucket, how many UUIDs were drawn, how often the storage prefix was read,
   * and the calls made so far.
   */
  datatype World = World(users: map<Long, UserState>, bucket: BucketState, draws: nat, prefixReads: nat,
                         log: seq<Interaction>)

  /**
   * The fixed collaborators: the avatar settings, the file validator, the
   * storage provider, the UUID supply, the resizer (`None` when the image
   * cannot be processed) and the URL signer.
   */
  datatype Setup = Setup(properties: AvatarProperties, validate: Option<MultipartFile> -> Result<Extension, ValidationError>,
                         provider: Provider, uuidSupply: nat -> Uuid,
                         resize: (Bytes, Int32, string) -> Option<Bytes>, presigner: ClientCall -> string)

  datatype UploadAvatarResponse = UploadAvatarResponse(userId: Long, fileIds: AvatarObjectPaths,
                                                       updatedAt: Option<Timestamp>)

  datatype GetAvatarResponse = GetAvatarResponse(userId: Long, fileIds: AvatarObjectPaths, hasAvatar: bool)

  datatype DeleteAvatarResponse = DeleteAvatarResponse(userId: Long, removed: bool, removedFiles: AvatarObjectPaths)

  /** What the first phase of an upload has gathered when nothing has been written yet. */
  datatype Staged = Staged(user: UserState, previous: Option<AvatarObjectPaths>, paths: AvatarObjectPaths,
                               original: Bytes, thumbnail: Bytes, profile: Bytes)

  function Logged(w: World, calls: seq<Interaction>): World {
    World(w.users, w.bucket, w.draws, w.prefixReads, w.log + calls)
  }

  /**
   * `file.getBytes()`: `None` when reading fails. The validator rejects a
   * null file before this step; here it reads as unreadable.
   */
  function Content(file: Option<MultipartFile>): Option<Bytes> {
    if file.Some? then file.value.content else None
  }

  /**
   * Upload, first phase: load the user, validate the file and read its bytes,
   * then stage the new generation.
   */
  function Prepare(c: Setup, w: World, userId: Long, file: Option<MultipartFile>)
    : (World, Result<Staged, ServiceException>)
  {
    var w1 := Logged(w, [LoadUser(userId)]);
    if userId !in w.users then (w1, Failure(UserNotFoundException(userId)))
    else
      var w2 := Logged(w1, [ValidateFile(file)]);
      match c.validate(file)
      case Failure(e) => (w2, Failure(ValidationException(e)))
      case Success(ext) =>
        var w3 := Logged(w2, [ReadBytes]);
        if Content(file).None? then (w3, Failure(ReadException()))
        else Stage(c, w3, userId, w.users[userId], Content(file).value, ext.Name())
  }

  /** Map the current avatar and generate the new keys from the next UUID, then resize. */
  function Stage(c: Setup, w: World, userId: Long, user: UserState, original: Bytes, extension: string)
    : (World, Result<Staged, ServiceException>)
  {
    var paths := PathsFor(c.properties.storagePath, userId, c.uuidSupply(w.draws), extension);
    var w1 := World(w.users, w.bucket, w.draws + 1, w.prefixReads + 1,
                    w.log + [MapToDto(user.avatar), GeneratePaths(userId, extension)]);
    Resize(c, w1, user, paths, original, extension)
  }

  /** Resize the original to the thumbnail side, then to the profile side. */
  function Resize(c: Setup, w: World, user: UserState, paths: AvatarObjectPaths, original: Bytes, extension: string)
    : (World, Result<Staged, ServiceException>)
  {
    var thumbnailSide := c.properties.sizes.thumbnail.maxSide;
    var profileSide := c.properties.sizes.profile.maxSide;
    var w1 := Logged(w, [ResizeImage(original, thumbnailSide, extension)]);
    match c.resize(original, thumbnailSide, extension)
    case None => (w1, Failure(ResizeException()))
    case Some(thumbnail) =>
      var w2 := Logged(w1, [ResizeImage(original, profileSide, extension)]);
      match c.resize(original, profileSide, extension)
      case None => (w2, Failure(ResizeException()))
      case Some(profile) => (w2, Success(Staged(user, ToDto(user.avatar), paths, original, thumbnail, profile)))
  }

  /** One `storeObject` call. */
  function StoreOne(c: Setup, w: World, key: Option<string>, content: Bytes): (World, Outcome<ServiceException>) {
    var step := Store(c.provider, w.bucket, key, Some(content));
    (World(w.users, step.state, w.draws, w.prefixReads, w.log + [StoreObjectCall(key, content)]), step.outcome)
  }

  /** Upload, second phase: write original, thumbnail and profile, stopping at the first failure. */
  function StoreGeneration(c: Setup, w: World, p: Staged): (World, Outcome<ServiceException>) {
    var (w1, o1) := StoreOne(c, w, p.paths.originalPath, p.original);
    if o1.Fail? then (w1, o1)
    else
      var (w2, o2) := StoreOne(c, w1, p.paths.thumbnailPath, p.thumbnail);
      if o2.Fail? then (w2, o2)
      else StoreOne(c, w2, p.paths.profilePath, p.profile)
  }

  /** `userService.save`: the record is persisted with its update time stamped. */
  function Persist(w: World, userId: Long, user: UserState, now: Timestamp): World {
    World(w.users[userId := Stamped(user, now)], w.bucket, w.draws, w.prefixReads, w.log + [SaveUser(user)])
  }

  /** The record as persisted: the update time is set when it is saved. */
  function Stamped(user: UserState, now: Timestamp): UserState {
    UserState(user.id, user.username, user.email, user.phone, user.active, user.aboutMe, user.country,
              user.city, user.experience, user.avatar, user.createdAt, Some(now))
  }

  function WithAvatar(user: UserState, avatar: Option<UserProfileAvatar>): UserState {
    UserState(user.id, user.username, user.email, user.phone, user.active, user.aboutMe, user.country,
              user.city, user.experience, avatar, user.createdAt, user.updatedAt)
  }

  /** Upload, third phase: attach the new keys to the user and save it. */
  function Attach(w: World, userId: Long, p: Staged, now: Timestamp): World {
    var avatar := ToEntity(Some(p.paths));
    Persist(Logged(w, [MapToEntity(p.paths)]), userId, WithAvatar(p.user, avatar), now)
  }

  /** One best-effort removal: a null or blank key is skipped, and a failure is ignored. */
  function RemoveQuietly(c: Setup, w: World, key: Option<string>): World {
    if UsableKey(key) then
      World(w.users, Remove(c.provider, w.bucket, key).state, w.draws, w.prefixReads,
            w.log + [RemoveObjectCall(key.value)])
    else w
  }

  /** Best-effort removal of each key in turn. */
  function RemoveAllQuietly(c: Setup, w: World, keys: seq<Option<string>>): World {
    if keys == [] then w else RemoveQuietly(c, RemoveAllQuietly(c, w, keys[..|keys| - 1]), keys[|keys| - 1])
  }

  /** `uploadAvatar`: the world afterwards and the response or the exception. */
  function Uploaded(c: Setup, w: World, userId: Long, file: Option<MultipartFile>, now: Timestamp)
    : (World, Result<UploadAvatarResponse, ServiceException>)
  {
    var (w1, prepared) := Prepare(c, w, userId, file);
    if prepared.Failure? then (w1, Failure(prepared.error))
    else
      var p := prepared.value;
      var (w2, stored) := StoreGeneration(c, w1, p);
      if stored.Fail? then (w2, Failure(stored.error))
      else
        var w3 := Attach(w2, userId, p, now);
        var w4 := if p.previous.Some? then RemoveAllQuietly(c, w3, Keys(p.previous.value)) else w3;
        (w4, Success(UploadAvatarResponse(userId, p.paths, Some(now))))
  }

  /** The URL for one stored key: none for a null or blank key, without a call. */
  function PresignField(c: Setup, w: World, key: Option<string>): (World, Result<Option<string>, ServiceException>) {
    if !UsableKey(key) then (w, Success(None))
    else
      var step := Presign(c.provider, c.presigner, w.bucket, key);
      var w1 := World(w.users, step.state, w.draws, w.prefixReads, w.log + [PresignCall(key.value)]);
      match step.url
      case Success(url) => (w1, Success(Some(url)))
      case Failure(e) => (w1, Failure(e))
  }

  /** `getAvatar`: the world afterwards and the response or the exception. */
  function Retrieved(c: Setup, w: World, userId: Long): (World, Result<GetAvatarResponse, ServiceException>) {
    var w1 := Logged(w, [LoadUser(userId)]);
    if userId !in w.users then (w1, Failure(UserNotFoundException(userId)))
    else if w.users[userId].avatar.None? then (w1, Failure(AvatarNotFoundException(userId)))
    else
      var avatar := w.users[userId].avatar.value;
      var (w2, original) := PresignField(c, w1, avatar.originalPath);
      if original.Failure? then (w2, Failure(original.error))
      else
        var (w3, thumbnail) := PresignField(c, w2, avatar.thumbnailPath);
        if thumbnail.Failure? then (w3, Failure(thumbnail.error))
        else
          var (w4, profile) := PresignField(c, w3, avatar.profilePath);
          if profile.Failure? then (w4, Failure(profile.error))
          else (w4, Success(GetAvatarResponse(userId, AvatarObjectPaths(original.value, thumbnail.value, profile.value),
                                              true)))
  }

  /** `deleteAvatar`: the world afterwards and the response or the exception. */
  function Deleted(c: Setup, w: World, userId: Long, now: Timestamp)
    : (World, Result<DeleteAvatarResponse, ServiceException>)
  {
    var w1 := Logged(w, [LoadUser(userId)]);
    if userId !in w.users then (w1, Failure(UserNotFoundException(userId)))
    else if w.users[userId].avatar.None? then (w1, Failure(AvatarNotFoundException(userId)))
    else
      var user := w.users[userId];
      var paths := ToDto(user.avatar).value;
      var w2 := RemoveAllQuietly(c, Logged(w1, [MapToDto(user.avatar)]), Keys(paths));
      (Persist(w2, userId, WithAvatar(user, None), now), Success(DeleteAvatarResponse(userId, true, paths)))
  }

  /**
   * The service. Its users and its call log are its own fields; the bucket
   * and the UUID draws live in the store and generator objects it calls.
   */
  class AvatarService {
    const properties: AvatarProperties
    const store: S3Service
    const generator: AvatarFileNameGenerator
    const resize: (Bytes, Int32, string) -> Option<Bytes>
    var users: map<Long, UserState>
    var interactions: seq<Interaction>

    /** The generator builds keys under the configured storage path. */
    predicate Valid() {
      generator.storagePath == properties.storagePath
    }

    function Collaborators(): Setup {
      Setup(properties, f => GetValidatedExtension(f, properties.allowedMimeTypes), store.provider,
            generator.uuidSupply, resize, store.presigner)
    }

    function State(): World
      reads this, store, generator
    {
      World(users, store.State(), generator.drawn, generator.storagePathReads, interactions)
    }

    constructor (properties: AvatarProperties, store: S3Service, generator: AvatarFileNameGenerator,
                 resize: (Bytes, Int32, string) -> Option<Bytes>, users: map<Long, UserState>)
      requires generator.storagePath == properties.storagePath
      ensures Valid()
      ensures this.properties == properties && this.store == store && this.generator == generator
      ensures this.resize == resize && this.users == users && interactions == []
    {
      this.properties := properties;
      this.store := store;
      this.generator := generator;
      this.resize := resize;
      this.users := users;
      this.interactions := [];
    }

    /** Upload, first phase; nothing is written to the store. */
    method PrepareUpload(userId: Long, file: Option<MultipartFile>) returns (r: Result<Staged, ServiceException>)
      requires Valid()
      modifies this, generator
      ensures (State(), r) == Prepare(Collaborators(), old(State()), userId, file)
    {
      interactions := interactions + [LoadUser(userId)];
      if userId !in users {
        return Failure(UserNotFoundException(userId));
      }
      interactions := interactions + [ValidateFile(file)];
      var checked := GetValidatedExtension(file, properties.allowedMimeTypes);
      if checked.Failure? {
        return Failure(ValidationException(checked.error));
      }
      interactions := interactions + [ReadBytes];
      var content := Content(file);
      if content.None? {
        return Failure(ReadException());
      }
      r := StageUpload(userId, users[userId], content.value, checked.value.Name());
    }

    method StageUpload(userId: Long, user: UserState, original: Bytes, extension: string)
      returns (r: Result<Staged, ServiceException>)
      requires Valid()
      modifies this, generator
      ensures (State(), r) == Stage(Collaborators(), old(State()), userId, user, original, extension)
    {
      interactions := interactions + [MapToDto(user.avatar), GeneratePaths(userId, extension)];
      var paths := generator.GenerateFilePaths(userId, extension);
      r := ResizeUpload(user, paths, original, extension);
    }

    method ResizeUpload(user: UserState, paths: AvatarObjectPaths, original: Bytes, extension: string)
      returns (r: Result<Staged, ServiceException>)
      modifies this
      ensures (State(), r) == Resize(Collaborators(), old(State()), user, paths, original, extension)
    {
      var thumbnailSide := properties.sizes.thumbnail.maxSide;
      var profileSide := properties.sizes.profile.maxSide;
      interactions := interactions + [ResizeImage(original, thumbnailSide, extension)];
      var thumbnail := resize(original, thumbnailSide, extension);
      if thumbnail.None? {
        return Failure(ResizeException());
      }
      interactions := interactions + [ResizeImage(original, profileSide, extension)];
      var profile := resize(original, profileSide, extension);
      if profile.None? {
        return Failure(ResizeException());
      }
      r := Success(Staged(user, ToDto(user.avatar), paths, original, thumbnail.value, profile.value));
    }

    /** Upload, second phase: the three writes. */
    method WriteGeneration(p: Staged) returns (r: Outcome<ServiceException>)
      modifies this, store
      ensures (State(), r) == StoreGeneration(Collaborators(), old(State()), p)
    {
      interactions := interactions + [StoreObjectCall(p.paths.originalPath, p.original)];
      r := store.StoreObject(p.paths.originalPath, Some(p.original));
      if r.Fail? {
        return;
      }
      interactions := interactions + [StoreObjectCall(p.paths.thumbnailPath, p.thumbnail)];
      r := store.StoreObject(p.paths.thumbnailPath, Some(p.thumbnail));
      if r.Fail? {
        return;
      }
      interactions := interactions + [StoreObjectCall(p.paths.profilePath, p.profile)];
      r := store.StoreObject(p.paths.profilePath, Some(p.profile));
    }

    /** `userService.save`. */
    method SaveRecord(userId: Long, user: UserState, now: Timestamp)
      modifies this
      ensures State() == Persist(old(State()), userId, user, now)
    {
      interactions := interactions + [SaveUser(user)];
      users := users[userId := Stamped(user, now)];
    }

    /** Best-effort removal: blank keys are skipped and each removal's outcome is discarded. */
    method RemoveKeysQuietly(keys: seq<Option<string>>)
      modifies this, store
      ensures State() == RemoveAllQuietly(Collaborators(), old(State()), keys)
    {
      var i := 0;
      while i < |keys|
        invariant 0 <= i <= |keys|
        invariant State() == RemoveAllQuietly(Collaborators(), old(State()), keys[..i])
      {
        assert keys[..i + 1][..i] == keys[..i];
        if UsableKey(keys[i]) {
          interactions := interactions + [RemoveObjectCall(keys[i].value)];
          var ignored := store.RemoveObject(keys[i]);
        }
        i := i + 1;
      }
      assert keys[..i] == keys;
    }

    method UploadAvatar(userId: Long, file: Option<MultipartFile>, now: Timestamp)
      returns (r: Result<UploadAvatarResponse, ServiceException>)
      requires Valid()
      modifies this, store, generator
      ensures (State(), r) == Uploaded(Collaborators(), old(State()), userId, file, now)
    {
      var prepared := PrepareUpload(userId, file);
      if prepared.Failure? {
        return Failure(prepared.error);
      }
      var p := prepared.value;
      var stored := WriteGeneration(p);
      if stored.Fail? {
        return Failure(stored.error);
      }
      interactions := interactions + [MapToEntity(p.paths)];
      SaveRecord(userId, WithAvatar(p.user, ToEntity(Some(p.paths))), now);
      if p.previous.Some? {
        RemoveKeysQuietly(Keys(p.previous.value));
      }
      r := Success(UploadAvatarResponse(userId, p.paths, Some(now)));
    }

    /** The URL of one key, or none without a call when the key is null or blank. */
    method PresignKey(key: Option<string>) returns (r: Result<Option<string>, ServiceException>)
      modifies this, store
      ensures (State(), r) == PresignField(Collaborators(), old(State()), key)
    {
      if !UsableKey(key) {
        return Success(None);
      }
      interactions := interactions + [PresignCall(key.value)];
      var url := store.GeneratePresignedUrl(key);
      r := if url.Success? then Success(Some(url.value)) else Failure(url.error);
    }

    method GetAvatar(userId: Long) returns (r: Result<GetAvatarResponse, ServiceException>)
      modifies this, store
      ensures (State(), r) == Retrieved(Collaborators(), old(State()), userId)
    {
      interactions := interactions + [LoadUser(userId)];
      if userId !in users {
        return Failure(UserNotFoundException(userId));
      }
      var user := users[userId];
      if user.avatar.None? {
        return Failure(AvatarNotFoundException(userId));
      }
      var original := PresignKey(user.avatar.value.originalPath);
      if original.Failure? {
        return Failure(original.error);
      }
      var thumbnail := PresignKey(user.avatar.value.thumbnailPath);
      if thumbnail.Failure? {
        return Failure(thumbnail.error);
      }
      var profile := PresignKey(user.avatar.value.profilePath);
      if profile.Failure? {
        return Failure(profile.error);
      }
      r := Success(GetAvatarResponse(userId, AvatarObjectPaths(original.value, thumbnail.value, profile.value), true));
    }

    method DeleteAvatar(userId: Long, now: Timestamp) returns (r: Result<DeleteAvatarResponse, ServiceException>)
      modifies this, store
      ensures (State(), r) == Deleted(Collaborators(), old(State()), userId, now)
    {
      interactions := interactions + [LoadUser(userId)];
      if userId !in users {
        return Failure(UserNotFoundException(userId));
      }
      var user := users[userId];
      if user.avatar.None? {
        return Failure(AvatarNotFoundException(userId));
      }
      interactions := interactions + [MapToDto(user.avatar)];
      var paths := ToDto(user.avatar).value;
      RemoveKeysQuietly(Keys(paths));
      SaveRecord(userId, WithAvatar(user, None), now);
      r := Success(DeleteAvatarResponse(userId, true, paths));
    }
  }
}
