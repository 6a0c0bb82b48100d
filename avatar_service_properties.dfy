/**
 * What the three avatar use cases promise, stated over the functions that
 * specify them: the exact response, the user records and bucket objects
 * afterwards, and the calls made to each collaborator, in order.
 */
module AvatarServiceProperties {

  import opened JavaLang
  import opened JavaText
  import opened JavaNumbers
  import opened ServiceExceptions
  import opened Users
  import opened AvatarMapping
  import opened ResourceValidation
  import opened AvatarPaths
  import opened ObjectStorage
  import opened AvatarOrchestration

  /** A key best-effort removal really deletes: usable, and the provider accepts the delete. */
  predicate Deletable(c: Setup, key: Option<string>) {
    UsableKey(key) && DeleteObject(c.provider.bucket, key.value) !in c.provider.faults
  }

  /** The objects best-effort removal of `keys` takes out of the bucket. */
  function Removed(c: Setup, keys: seq<Option<string>>): set<string> {
    set k | k in keys && Deletable(c, k) :: k.value
  }

  /** The `removeObject` calls best-effort removal of `keys` makes: one per usable key, in order. */
  function RemovalCalls(keys: seq<Option<string>>): (r: seq<Interaction>)
    ensures |r| <= |keys|
    ensures forall i :: 0 <= i < |r| ==> r[i].RemoveObjectCall? && Some(r[i].key) in keys && UsableKey(Some(r[i].key))
  {
    if keys == [] then []
    else
      var last := keys[|keys| - 1];
      RemovalCalls(keys[..|keys| - 1]) + if UsableKey(last) then [RemoveObjectCall(last.value)] else []
  }

  lemma {:induction false} RemovedStep(c: Setup, keys: seq<Option<string>>)
    requires keys != []
    ensures var n := |keys| - 1;
            Removed(c, keys) == Removed(c, keys[..n]) + if Deletable(c, keys[n]) then {keys[n].value} else {}
  {
    var n := |keys| - 1;
    assert forall k :: k in keys <==> k in keys[..n] || k == keys[n] by {
      assert keys == keys[..n] + [keys[n]];
    }
  }

  /**
   * Best-effort removal touches nothing but the bucket and the log: the
   * accepted deletes take their keys out, and a refused or skipped key is
   * left as it was.
   */
  lemma {:induction false} RemovalEffect(c: Setup, w: World, keys: seq<Option<string>>)
    ensures RemoveAllQuietly(c, w, keys).users == w.users
    ensures RemoveAllQuietly(c, w, keys).draws == w.draws
    ensures RemoveAllQuietly(c, w, keys).prefixReads == w.prefixReads
    ensures RemoveAllQuietly(c, w, keys).log == w.log + RemovalCalls(keys)
    ensures RemoveAllQuietly(c, w, keys).bucket.objects == w.bucket.objects - Removed(c, keys)
    decreases |keys|
  {
    if keys != [] {
      var n := |keys| - 1;
      var prefix := keys[..n];
      RemovalEffect(c, w, prefix);
      RemovedStep(c, keys);
      var before := RemoveAllQuietly(c, w, prefix).bucket.objects;
      if Deletable(c, keys[n]) {
        assert before - {keys[n].value} == w.bucket.objects - Removed(c, keys);
      }
    }
  }

  /** Removing nothing, or only null and blank keys, changes nothing at all. */
  lemma {:induction false} RemovalOfUnusableKeys(c: Setup, w: World, keys: seq<Option<string>>)
    requires forall i :: 0 <= i < |keys| ==> !UsableKey(keys[i])
    ensures RemoveAllQuietly(c, w, keys) == w
    decreases |keys|
  {
    if keys != [] {
      RemovalOfUnusableKeys(c, w, keys[..|keys| - 1]);
    }
  }

  // ---------------------------------------------------------------- getAvatar

  /** What `getAvatar` returns for one stored key: no link for a null or blank key, the signed URL otherwise. */
  function SignedUrl(c: Setup, key: Option<string>): Option<string> {
    if UsableKey(key) then Some(c.presigner(PresignGetObject(c.provider.bucket, key.value, c.provider.urlExpiration)))
    else None
  }

  /** The provider signs the key, or the key is never sent. */
  predicate Signable(c: Setup, key: Option<string>) {
    !UsableKey(key) || PresignGetObject(c.provider.bucket, key.value, c.provider.urlExpiration) !in c.provider.faults
  }

  function SignCall(key: Option<string>): seq<Interaction> {
    if UsableKey(key) then [PresignCall(key.value)] else []
  }

  /** `getAvatar` of a user without an avatar: the lookup is the only call, and the exception names the user. */
  lemma {:induction false} RetrievalWithoutAvatar(c: Setup, w: World, userId: Long)
    requires userId in w.users && w.users[userId].avatar.None?
    ensures Retrieved(c, w, userId) == (Logged(w, [LoadUser(userId)]), Failure(AvatarNotFoundException(userId)))
    ensures Retrieved(c, w, userId).1.error.message == AVATAR_NOT_FOUND_PREFIX + LongToString(userId)
  {
  }

  /**
   * `getAvatar` with every usable key signed: a link for each usable key and
   * none for null or blank ones, one presign call per usable key in the
   * order original, thumbnail, profile, and nothing else changed.
   */
  lemma {:induction false} RetrievalSucceeds(c: Setup, w: World, userId: Long)
    requires userId in w.users && w.users[userId].avatar.Some?
    requires var a := w.users[userId].avatar.value;
             Signable(c, a.originalPath) && Signable(c, a.thumbnailPath) && Signable(c, a.profilePath)
    ensures var a := w.users[userId].avatar.value;
            var (w', r) := Retrieved(c, w, userId);
            && r == Success(GetAvatarResponse(userId, AvatarObjectPaths(SignedUrl(c, a.originalPath),
                                                                         SignedUrl(c, a.thumbnailPath),
                                                                         SignedUrl(c, a.profilePath)), true))
            && w'.users == w.users && w'.bucket.objects == w.bucket.objects && w'.draws == w.draws
            && w'.log == w.log + [LoadUser(userId)] + SignCall(a.originalPath) + SignCall(a.thumbnailPath)
                                                    + SignCall(a.profilePath)
  {
    var a := w.users[userId].avatar.value;
    var w1 := Logged(w, [LoadUser(userId)]);
    var w2 := PresignField(c, w1, a.originalPath).0;
    var w3 := PresignField(c, w2, a.thumbnailPath).0;
    assert w2.log == w1.log + SignCall(a.originalPath);
    assert w3.log == w2.log + SignCall(a.thumbnailPath);
  }

  /**
   * `getAvatar` succeeds exactly when the user exists, has an avatar and the
   * provider signs every usable key; it never changes a user or an object.
   */
  lemma {:induction false} RetrievalSucceedsIff(c: Setup, w: World, userId: Long)
    ensures Retrieved(c, w, userId).1.Success? <==>
              && userId in w.users && w.users[userId].avatar.Some?
              && var a := w.users[userId].avatar.value;
                 Signable(c, a.originalPath) && Signable(c, a.thumbnailPath) && Signable(c, a.profilePath)
    ensures Retrieved(c, w, userId).0.users == w.users
    ensures Retrieved(c, w, userId).0.bucket.objects == w.bucket.objects
  {
    if userId in w.users && w.users[userId].avatar.Some? {
      var a := w.users[userId].avatar.value;
      var w1 := Logged(w, [LoadUser(userId)]);
      var w2 := PresignField(c, w1, a.originalPath).0;
      var w3 := PresignField(c, w2, a.thumbnailPath).0;
      assert w2.bucket.objects == w.bucket.objects;
      assert w3.bucket.objects == w.bucket.objects;
    }
  }

  // ------------------------------------------------------------- deleteAvatar

  /** `deleteAvatar` for an unknown user or one without an avatar: the lookup is the only call. */
  lemma {:induction false} DeletionWithoutAvatar(c: Setup, w: World, userId: Long, now: Timestamp)
    ensures userId !in w.users ==>
              Deleted(c, w, userId, now) == (Logged(w, [LoadUser(userId)]), Failure(UserNotFoundException(userId)))
    ensures userId in w.users && w.users[userId].avatar.None? ==>
              Deleted(c, w, userId, now) == (Logged(w, [LoadUser(userId)]), Failure(AvatarNotFoundException(userId)))
  {
  }

  /**
   * `deleteAvatar` of a user with an avatar: the response reports the old
   * keys, each usable key is removed best-effort, and the record is saved
   * with the avatar cleared.
   */
  lemma {:induction false} DeletionSucceeds(c: Setup, w: World, userId: Long, now: Timestamp)
    requires userId in w.users && w.users[userId].avatar.Some?
    ensures var user := w.users[userId];
            var paths := ToDto(user.avatar).value;
            var (w', r) := Deleted(c, w, userId, now);
            && r == Success(DeleteAvatarResponse(userId, true, paths))
            && w'.users == w.users[userId := Stamped(WithAvatar(user, None), now)]
            && w'.bucket.objects == w.bucket.objects - Removed(c, Keys(paths))
            && w'.draws == w.draws
            && w'.log == w.log + [LoadUser(userId), MapToDto(user.avatar)] + RemovalCalls(Keys(paths))
                               + [SaveUser(WithAvatar(user, None))]
  {
    var user := w.users[userId];
    var paths := ToDto(user.avatar).value;
    var w1 := Logged(w, [LoadUser(userId), MapToDto(user.avatar)]);
    assert Logged(Logged(w, [LoadUser(userId)]), [MapToDto(user.avatar)]) == w1;
    RemovalEffect(c, w1, Keys(paths));
  }

  /** A second `deleteAvatar` finds nothing to delete. */
  lemma {:induction false} DeleteTwiceFails(c: Setup, w: World, userId: Long, now: Timestamp, later: Timestamp)
    requires userId in w.users && w.users[userId].avatar.Some?
    ensures var w' := Deleted(c, w, userId, now).0;
            Deleted(c, w', userId, later) == (Logged(w', [LoadUser(userId)]), Failure(AvatarNotFoundException(userId)))
  {
    DeletionSucceeds(c, w, userId, now);
  }

  // ------------------------------------------------------------ uploadAvatar

  /** Every generated key is usable: the separator after the storage prefix is not whitespace. */
  lemma {:induction false} GeneratedKeysUsable(storagePath: string, userId: Long, uuid: Uuid, extension: string)
    ensures forall k :: k in Keys(PathsFor(storagePath, userId, uuid, extension)) ==> UsableKey(k)
  {
    forall v: Version
      ensures !IsBlank(BuildPath(storagePath, userId, uuid, v, extension))
    {
      BuildPathLayout(storagePath, userId, uuid, v, extension);
      assert BuildPath(storagePath, userId, uuid, v, extension)[|storagePath|] == '/';
    }
    assert Keys(PathsFor(storagePath, userId, uuid, extension))
        == [Some(BuildPath(storagePath, userId, uuid, Original, extension)),
            Some(BuildPath(storagePath, userId, uuid, Thumbnail, extension)),
            Some(BuildPath(storagePath, userId, uuid, Profile, extension))];
  }

  /** The keys an upload draws: the next UUID under the configured storage path. */
  function NewPaths(c: Setup, w: World, userId: Long, extension: string): AvatarObjectPaths {
    PathsFor(c.properties.storagePath, userId, c.uuidSupply(w.draws), extension)
  }

  /** The provider accepts writing `content` under `key`, and the content is not empty. */
  predicate Accepts(c: Setup, key: Option<string>, content: Bytes) {
    |content| > 0 && key.Some? && PutObject(c.provider.bucket, key.value, content) !in c.provider.faults
  }

  function ThumbnailSide(c: Setup): Int32 {
    c.properties.sizes.thumbnail.maxSide
  }

  function ProfileSide(c: Setup): Int32 {
    c.properties.sizes.profile.maxSide
  }

  /**
   * Everything an upload needs: a known user, a valid and readable file, two
   * successful resizes and three accepted writes.
   */
  predicate UploadAccepted(c: Setup, w: World, userId: Long, file: Option<MultipartFile>) {
    && userId in w.users
    && c.validate(file).Success?
    && Content(file).Some?
    && var extension := c.validate(file).value.Name();
       var original := Content(file).value;
       var paths := NewPaths(c, w, userId, extension);
       && c.resize(original, ThumbnailSide(c), extension).Some?
       && c.resize(original, ProfileSide(c), extension).Some?
       && Accepts(c, paths.originalPath, original)
       && Accepts(c, paths.thumbnailPath, c.resize(original, ThumbnailSide(c), extension).value)
       && Accepts(c, paths.profilePath, c.resize(original, ProfileSide(c), extension).value)
  }

  /** The keys the previous generation leaves behind for removal. */
  function PreviousKeys(user: UserState): seq<Option<string>> {
    if user.avatar.Some? then Keys(ToDto(user.avatar).value) else []
  }

  /** An unknown user, an invalid file or unreadable bytes: no key is drawn and nothing is written or saved. */
  lemma {:induction false} UploadRejectedEarly(c: Setup, w: World, userId: Long, file: Option<MultipartFile>,
                                               now: Timestamp)
    ensures userId !in w.users ==>
              Uploaded(c, w, userId, file, now) == (Logged(w, [LoadUser(userId)]), Failure(UserNotFoundException(userId)))
    ensures userId in w.users && c.validate(file).Failure? ==>
              Uploaded(c, w, userId, file, now)
              == (Logged(w, [LoadUser(userId), ValidateFile(file)]),
                  Failure(ValidationException(c.validate(file).error)))
    ensures userId in w.users && c.validate(file).Success? &&
            Content(file).None? ==>
              Uploaded(c, w, userId, file, now) == (Logged(w, [LoadUser(userId), ValidateFile(file), ReadBytes]),
                                                    Failure(ReadException()))
  {
    assert Logged(Logged(w, [LoadUser(userId)]), [ValidateFile(file)]) == Logged(w, [LoadUser(userId), ValidateFile(file)]);
    assert Logged(Logged(Logged(w, [LoadUser(userId)]), [ValidateFile(file)]), [ReadBytes])
        == Logged(w, [LoadUser(userId), ValidateFile(file), ReadBytes]);
  }

  /** A known user and a valid, readable file: the checks log three calls and hand over to staging. */
  lemma {:induction false} PrepareHandsOver(c: Setup, w: World, userId: Long, file: Option<MultipartFile>,
                                            extension: Extension, original: Bytes)
    requires userId in w.users
    requires c.validate(file) == Success(extension)
    requires Content(file) == Some(original)
    ensures Prepare(c, w, userId, file)
            == Stage(c, Logged(Logged(Logged(w, [LoadUser(userId)]), [ValidateFile(file)]), [ReadBytes]), userId,
                     w.users[userId], original, extension.Name())
  {
  }

  /** Staging with two successful resizes: one key drawn, four calls logged, nothing written. */
  lemma {:induction false} StageSucceeds(c: Setup, w: World, userId: Long, user: UserState, original: Bytes,
                                         extension: string, thumbnail: Bytes, profile: Bytes)
    requires c.resize(original, ThumbnailSide(c), extension) == Some(thumbnail)
    requires c.resize(original, ProfileSide(c), extension) == Some(profile)
    ensures Stage(c, w, userId, user, original, extension)
            == (World(w.users, w.bucket, w.draws + 1, w.prefixReads + 1,
                      w.log + [MapToDto(user.avatar), GeneratePaths(userId, extension),
                               ResizeImage(original, ThumbnailSide(c), extension),
                               ResizeImage(original, ProfileSide(c), extension)]),
                Success(Staged(user, ToDto(user.avatar), NewPaths(c, w, userId, extension), original, thumbnail,
                               profile)))
  {
    assert w.log + [MapToDto(user.avatar), GeneratePaths(userId, extension)]
                 + [ResizeImage(original, ThumbnailSide(c), extension)]
                 + [ResizeImage(original, ProfileSide(c), extension)]
        == w.log + [MapToDto(user.avatar), GeneratePaths(userId, extension),
                    ResizeImage(original, ThumbnailSide(c), extension),
                    ResizeImage(original, ProfileSide(c), extension)];
  }

  /** Three accepted writes of usable keys: each version lands under its key. */
  lemma {:induction false} WritesAccepted(c: Setup, w: World, p: Staged)
    requires UsableKey(p.paths.originalPath) && UsableKey(p.paths.thumbnailPath) && UsableKey(p.paths.profilePath)
    requires Accepts(c, p.paths.originalPath, p.original) && Accepts(c, p.paths.thumbnailPath, p.thumbnail)
    requires Accepts(c, p.paths.profilePath, p.profile)
    ensures StoreGeneration(c, w, p).1 == Pass
    ensures StoreGeneration(c, w, p).0
            == World(w.users, BucketState(w.bucket.objects[p.paths.originalPath.value := p.original]
                                                          [p.paths.thumbnailPath.value := p.thumbnail]
                                                          [p.paths.profilePath.value := p.profile],
                                          StoreGeneration(c, w, p).0.bucket.calls),
                     w.draws, w.prefixReads,
                     w.log + [StoreObjectCall(p.paths.originalPath, p.original),
                              StoreObjectCall(p.paths.thumbnailPath, p.thumbnail),
                              StoreObjectCall(p.paths.profilePath, p.profile)])
  {
    var w1 := StoreOne(c, w, p.paths.originalPath, p.original).0;
    var w2 := StoreOne(c, w1, p.paths.thumbnailPath, p.thumbnail).0;
    assert w2.log == w.log + [StoreObjectCall(p.paths.originalPath, p.original),
                              StoreObjectCall(p.paths.thumbnailPath, p.thumbnail)];
  }

  /** After a staged generation is written: attach, save, then remove the previous generation's keys. */
  lemma {:induction false} UploadComposes(c: Setup, w: World, userId: Long, file: Option<MultipartFile>,
                                          now: Timestamp, p: Staged, staged: World, written: World)
    requires Prepare(c, w, userId, file) == (staged, Success(p))
    requires StoreGeneration(c, staged, p) == (written, Pass)
    requires p.previous == ToDto(p.user.avatar)
    ensures Uploaded(c, w, userId, file, now)
            == (RemoveAllQuietly(c, Attach(written, userId, p, now), PreviousKeys(p.user)),
                Success(UploadAvatarResponse(userId, p.paths, Some(now))))
  {
  }

  lemma AppendThree<T>(l: seq<T>, x: T, y: T, z: T)
    ensures l + [x] + [y] + [z] == l + [x, y, z]
  {
  }

  lemma AppendTwo<T>(l: seq<T>, x: T, y: T)
    ensures l + [x] + [y] == l + [x, y]
  {
  }

  /**
   * A successful upload: the response carries the new keys and the save
   * time; the record holds the new avatar; the three versions are in the
   * bucket and the previous generation's usable keys are removed best-effort;
   * and the collaborators are called in this order.
   */
  lemma {:induction false} UploadSucceeds(c: Setup, w: World, userId: Long, file: Option<MultipartFile>,
                                          now: Timestamp)
    requires UploadAccepted(c, w, userId, file)
    ensures var user := w.users[userId];
            var extension := c.validate(file).value.Name();
            var original := Content(file).value;
            var thumbnail := c.resize(original, ThumbnailSide(c), extension).value;
            var profile := c.resize(original, ProfileSide(c), extension).value;
            var paths := NewPaths(c, w, userId, extension);
            var saved := WithAvatar(user, ToEntity(Some(paths)));
            var (w', r) := Uploaded(c, w, userId, file, now);
            && r == Success(UploadAvatarResponse(userId, paths, Some(now)))
            && w'.users == w.users[userId := Stamped(saved, now)]
            && w'.draws == w.draws + 1
            && w'.bucket.objects == w.bucket.objects[paths.originalPath.value := original]
                                                    [paths.thumbnailPath.value := thumbnail]
                                                    [paths.profilePath.value := profile]
                                    - Removed(c, PreviousKeys(user))
            && w'.log == w.log + [LoadUser(userId), ValidateFile(file), ReadBytes]
                               + [MapToDto(user.avatar), GeneratePaths(userId, extension),
                                  ResizeImage(original, ThumbnailSide(c), extension),
                                  ResizeImage(original, ProfileSide(c), extension)]
                               + [StoreObjectCall(paths.originalPath, original),
                                  StoreObjectCall(paths.thumbnailPath, thumbnail),
                                  StoreObjectCall(paths.profilePath, profile)]
                               + [MapToEntity(paths), SaveUser(saved)]
                               + RemovalCalls(PreviousKeys(user))
  {
    var user := w.users[userId];
    var extension := c.validate(file).value.Name();
    var original := Content(file).value;
    var thumbnail := c.resize(original, ThumbnailSide(c), extension).value;
    var profile := c.resize(original, ProfileSide(c), extension).value;
    var paths := NewPaths(c, w, userId, extension);
    GeneratedKeysUsable(c.properties.storagePath, userId, c.uuidSupply(w.draws), extension);
    var staged := Staged(user, ToDto(user.avatar), paths, original, thumbnail, profile);
    PrepareHandsOver(c, w, userId, file, c.validate(file).value, original);
    var w3 := Logged(Logged(Logged(w, [LoadUser(userId)]), [ValidateFile(file)]), [ReadBytes]);
    AppendThree(w.log, LoadUser(userId), ValidateFile(file), ReadBytes);
    StageSucceeds(c, w3, userId, user, original, extension, thumbnail, profile);
    var w4 := Prepare(c, w, userId, file).0;
    WritesAccepted(c, w4, staged);
    var w5 := StoreGeneration(c, w4, staged).0;
    UploadComposes(c, w, userId, file, now, staged, w4, w5);
    var w6 := Attach(w5, userId, staged, now);
    AppendTwo(w5.log, MapToEntity(paths), SaveUser(WithAvatar(user, ToEntity(Some(paths)))));
    RemovalEffect(c, w6, PreviousKeys(user));
  }

  /** The first phase never changes a user record or the bucket. */
  lemma {:induction false} PrepareWritesNothing(c: Setup, w: World, userId: Long, file: Option<MultipartFile>)
    ensures Prepare(c, w, userId, file).0.users == w.users
    ensures Prepare(c, w, userId, file).0.bucket == w.bucket
  {
    if userId in w.users && c.validate(file).Success?
       && Content(file).Some? {
      PrepareHandsOver(c, w, userId, file, c.validate(file).value,
                       Content(file).value);
    }
  }

  /** With usable keys, the writes pass exactly when the provider accepts all three. */
  lemma {:induction false} WritesPassIff(c: Setup, w: World, p: Staged)
    requires UsableKey(p.paths.originalPath) && UsableKey(p.paths.thumbnailPath) && UsableKey(p.paths.profilePath)
    ensures StoreGeneration(c, w, p).1 == Pass <==>
              Accepts(c, p.paths.originalPath, p.original) && Accepts(c, p.paths.thumbnailPath, p.thumbnail)
              && Accepts(c, p.paths.profilePath, p.profile)
    ensures StoreGeneration(c, w, p).0.users == w.users
  {
  }

  /**
   * A failed upload never saves a user record, and one that fails before
   * writing (unknown user, invalid or unreadable file, failed resize) leaves
   * the bucket as it was.
   */
  lemma {:induction false} UploadFailureKeepsRecords(c: Setup, w: World, userId: Long, file: Option<MultipartFile>,
                                                     now: Timestamp)
    ensures Uploaded(c, w, userId, file, now).1.Failure? ==> Uploaded(c, w, userId, file, now).0.users == w.users
    ensures Prepare(c, w, userId, file).1.Failure? ==> Uploaded(c, w, userId, file, now).0.bucket == w.bucket
  {
    PrepareWritesNothing(c, w, userId, file);
    var (w1, prepared) := Prepare(c, w, userId, file);
    if prepared.Success? {
      var p := prepared.value;
      var w2 := StoreGeneration(c, w1, p).0;
      var stored := StoreGeneration(c, w1, p).1;
      if stored.Fail? {
        assert w2.users == w1.users by {
          var (x1, o1) := StoreOne(c, w1, p.paths.originalPath, p.original);
          var (x2, o2) := StoreOne(c, x1, p.paths.thumbnailPath, p.thumbnail);
          assert x2.users == w1.users;
        }
      }
    }
  }

  /** An upload succeeds exactly when everything it needs is there. */
  lemma {:induction false} UploadSucceedsIff(c: Setup, w: World, userId: Long, file: Option<MultipartFile>,
                                             now: Timestamp)
    ensures Uploaded(c, w, userId, file, now).1.Success? <==> UploadAccepted(c, w, userId, file)
  {
    if UploadAccepted(c, w, userId, file) {
      UploadSucceeds(c, w, userId, file, now);
    } else if userId in w.users && c.validate(file).Success?
              && Content(file).Some? {
      var user := w.users[userId];
      var extension := c.validate(file).value.Name();
      var original := Content(file).value;
      PrepareHandsOver(c, w, userId, file, c.validate(file).value, original);
      var w3 := Logged(Logged(Logged(w, [LoadUser(userId)]), [ValidateFile(file)]), [ReadBytes]);
      if c.resize(original, ThumbnailSide(c), extension).Some? && c.resize(original, ProfileSide(c), extension).Some? {
        var thumbnail := c.resize(original, ThumbnailSide(c), extension).value;
        var profile := c.resize(original, ProfileSide(c), extension).value;
        StageSucceeds(c, w3, userId, user, original, extension, thumbnail, profile);
        var paths := NewPaths(c, w, userId, extension);
        GeneratedKeysUsable(c.properties.storagePath, userId, c.uuidSupply(w.draws), extension);
        var staged := Staged(user, ToDto(user.avatar), paths, original, thumbnail, profile);
        WritesPassIff(c, Prepare(c, w, userId, file).0, staged);
      }
    }
  }

  /**
   * Replacing a generation drawn from another UUID: afterwards the bucket
   * holds the three new versions and none of the old keys whose deletes the
   * provider accepts.
   */
  lemma {:induction false} ReplacedGenerationIsGone(c: Setup, w: World, userId: Long, file: Option<MultipartFile>,
                                                    now: Timestamp, oldUserId: Long, oldUuid: Uuid,
                                                    oldExtension: string)
    requires UploadAccepted(c, w, userId, file)
    requires w.users[userId].avatar == ToEntity(Some(PathsFor(c.properties.storagePath, oldUserId, oldUuid, oldExtension)))
    requires oldUuid != c.uuidSupply(w.draws)
    ensures var extension := c.validate(file).value.Name();
            var original := Content(file).value;
            var paths := NewPaths(c, w, userId, extension);
            var objects := Uploaded(c, w, userId, file, now).0.bucket.objects;
            && paths.originalPath.value in objects && objects[paths.originalPath.value] == original
            && paths.thumbnailPath.value in objects
            && objects[paths.thumbnailPath.value] == c.resize(original, ThumbnailSide(c), extension).value
            && paths.profilePath.value in objects
            && objects[paths.profilePath.value] == c.resize(original, ProfileSide(c), extension).value
            && forall k :: k in Keys(PathsFor(c.properties.storagePath, oldUserId, oldUuid, oldExtension))
                           && Deletable(c, k) ==>
                             k.value !in objects
  {
    var extension := c.validate(file).value.Name();
    var paths := NewPaths(c, w, userId, extension);
    var previous := PathsFor(c.properties.storagePath, oldUserId, oldUuid, oldExtension);
    UploadSucceeds(c, w, userId, file, now);
    PathsForDistinct(c.properties.storagePath, userId, c.uuidSupply(w.draws), extension);
    DistinctUuidsDisjointPaths(c.properties.storagePath, userId, c.uuidSupply(w.draws), extension,
                               oldUserId, oldUuid, oldExtension);
    assert PreviousKeys(w.users[userId]) == Keys(previous);
    var removed := Removed(c, Keys(previous));
    assert Keys(paths)[0] == paths.originalPath && Keys(paths)[1] == paths.thumbnailPath;
    assert Keys(paths)[2] == paths.profilePath;
    forall k | k in Keys(paths)
      ensures k.value !in removed
    {
      assert forall j :: 0 <= j < 3 ==> k != Keys(previous)[j];
    }
    WrittenKeysSurvive(w.bucket.objects, paths.originalPath.value, paths.thumbnailPath.value, paths.profilePath.value,
                       Content(file).value, c.resize(Content(file).value, ThumbnailSide(c), extension).value,
                       c.resize(Content(file).value, ProfileSide(c), extension).value, removed);
  }

  /** Three distinct keys written and then outside a removed set keep what was written; the removed keys are gone. */
  lemma WrittenKeysSurvive(m: map<string, Bytes>, o: string, t: string, p: string, a: Bytes, b: Bytes, d: Bytes,
                           removed: set<string>)
    requires o != t && o != p && t != p
    requires o !in removed && t !in removed && p !in removed
    ensures var m' := m[o := a][t := b][p := d] - removed;
            && o in m' && m'[o] == a && t in m' && m'[t] == b && p in m' && m'[p] == d
            && forall x :: x in removed ==> x !in m'
  {
  }

  /** Right after an upload, `getAvatar` signs the three new keys. */
  lemma {:induction false} UploadThenRetrieve(c: Setup, w: World, userId: Long, file: Option<MultipartFile>,
                                              now: Timestamp)
    requires UploadAccepted(c, w, userId, file)
    requires var paths := NewPaths(c, w, userId, c.validate(file).value.Name());
             Signable(c, paths.originalPath) && Signable(c, paths.thumbnailPath) && Signable(c, paths.profilePath)
    ensures var paths := NewPaths(c, w, userId, c.validate(file).value.Name());
            var r := Retrieved(c, Uploaded(c, w, userId, file, now).0, userId).1;
            && r == Success(GetAvatarResponse(userId, AvatarObjectPaths(SignedUrl(c, paths.originalPath),
                                                                         SignedUrl(c, paths.thumbnailPath),
                                                                         SignedUrl(c, paths.profilePath)), true))
            && r.value.fileIds.originalPath.Some? && r.value.fileIds.thumbnailPath.Some?
            && r.value.fileIds.profilePath.Some?
  {
    var extension := c.validate(file).value.Name();
    UploadSucceeds(c, w, userId, file, now);
    GeneratedKeysUsable(c.properties.storagePath, userId, c.uuidSupply(w.draws), extension);
    RetrievalSucceeds(c, Uploaded(c, w, userId, file, now).0, userId);
  }

  /** Deleting right after an upload reports exactly the keys the upload returned. */
  lemma {:induction false} UploadThenDelete(c: Setup, w: World, userId: Long, file: Option<MultipartFile>,
                                            now: Timestamp, later: Timestamp)
    requires UploadAccepted(c, w, userId, file)
    ensures var uploaded := Uploaded(c, w, userId, file, now);
            && uploaded.1.Success?
            && Deleted(c, uploaded.0, userId, later).1 == Success(DeleteAvatarResponse(userId, true, uploaded.1.value.fileIds))
  {
    var extension := c.validate(file).value.Name();
    UploadSucceeds(c, w, userId, file, now);
    ToDtoOfToEntity(Some(NewPaths(c, w, userId, extension)));
    DeletionSucceeds(c, Uploaded(c, w, userId, file, now).0, userId, later);
  }
}

