/**
 * Storage keys for the three versions of an uploaded avatar. Every key has the
 * layout `storagePath/userId/uuid/version.extension`; the UUID is drawn once per
 * upload and shared by its three keys, and the versions are `original`,
 * `thumbnail` and `profile`.
 */
module AvatarPaths {

  import opened JavaLang
  import opened JavaNumbers
  import opened AvatarMapping

  /** The three stored versions of an avatar. */
  datatype Version = Original | Thumbnail | Profile {
    function Name(): (r: string)
      ensures |r| > 0 && '/' !in r && '.' !in r
    {
      match this
      case Original => "original"
      case Thumbnail => "thumbnail"
      case Profile => "profile"
    }
  }

  lemma VersionNamesDistinct(v: Version, w: Version)
    ensures v.Name() == w.Name() <==> v == w
  {
  }

  predicate IsHexDigit(c: char) {
    '0' <= c <= '9' || 'a' <= c <= 'f'
  }

  /** The canonical text of a `java.util.UUID`: 32 lower-case hex digits in groups 8-4-4-4-12. */
  predicate IsUuidText(s: string) {
    |s| == 36
    && forall i :: 0 <= i < 36 ==> if i in {8, 13, 18, 23} then s[i] == '-' else IsHexDigit(s[i])
  }

  type Uuid = s: string | IsUuidText(s) witness "00000000-0000-0000-0000-000000000000"

  lemma UuidHasNoSeparator(u: Uuid)
    ensures '/' !in u
  {
    forall i | 0 <= i < |u|
      ensures u[i] != '/'
    {
      assert i in {8, 13, 18, 23} || IsHexDigit(u[i]);
    }
  }

  /** `String.join(sep, parts)`: the parts with `sep` between neighbours. */
  function Join(sep: string, parts: seq<string>): (r: string)
    ensures |parts| == 1 ==> r == parts[0]
    ensures |parts| > 1 ==> r == Join(sep, parts[..|parts| - 1]) + sep + parts[|parts| - 1]
  {
    if |parts| == 0 then ""
    else if |parts| == 1 then parts[0]
    else Join(sep, parts[..|parts| - 1]) + sep + parts[|parts| - 1]
  }

  /** The key of one version of an avatar. */
  function BuildPath(storagePath: string, userId: Long, uuid: Uuid, version: Version, extension: string): string
  {
    Join("/", [storagePath, LongToString(userId), uuid, version.Name() + "." + extension])
  }

  /** Four parts joined: each separator sits between two neighbours. */
  lemma {:induction false} JoinFour(sep: string, a: string, b: string, c: string, d: string)
    ensures Join(sep, [a, b, c, d]) == a + sep + (b + sep + (c + sep + d))
  {
    var parts := [a, b, c, d];
    assert parts[..3] == [a, b, c];
    assert parts[..3][..2] == [a, b];
    assert parts[..3][..2][..1] == [a];
    assert Join(sep, [a, b]) == a + sep + b;
    assert Join(sep, [a, b, c]) == a + sep + b + sep + c;
    assert a + sep + b + sep + c + sep + d == a + sep + (b + sep + (c + sep + d));
  }

  /** The key spelled out: the configured prefix, the user id, the UUID and the versioned file name. */
  lemma {:induction false} BuildPathLayout(storagePath: string, userId: Long, uuid: Uuid, version: Version,
                                           extension: string)
    ensures BuildPath(storagePath, userId, uuid, version, extension)
            == storagePath + "/" + (LongToString(userId) + "/" + (uuid + "/" + (version.Name() + "." + extension)))
  {
    JoinFour("/", storagePath, LongToString(userId), uuid, version.Name() + "." + extension);
  }

  /** Two strings joined at a separator neither left part contains split back into the same parts. */
  lemma {:induction false} SplitAt(sep: char, a: string, b: string, c: string, d: string)
    requires sep !in a && sep !in c
    requires a + [sep] + b == c + [sep] + d
    ensures a == c && b == d
  {
    var s := a + [sep] + b;
    assert s[|a|] == sep && forall k :: 0 <= k < |a| ==> s[k] != sep;
    assert s[|c|] == sep && forall k :: 0 <= k < |c| ==> s[k] != sep;
    assert |a| == |c|;
    assert a == s[..|a|] && c == s[..|c|];
    assert b == s[|a| + 1..] && d == s[|c| + 1..];
  }

  /** A common prefix can be cancelled. */
  lemma {:induction false} CancelPrefix(p: string, x: string, y: string)
    requires p + x == p + y
    ensures x == y
  {
    assert x == (p + x)[|p|..];
    assert y == (p + y)[|p|..];
  }

  /** Under one storage prefix, a key determines the user id, the UUID, the version and the extension. */
  lemma {:induction false} BuildPathInjective(storagePath: string, userId: Long, uuid: Uuid, version: Version,
                                              extension: string, userId': Long, uuid': Uuid, version': Version,
                                              extension': string)
    requires BuildPath(storagePath, userId, uuid, version, extension)
          == BuildPath(storagePath, userId', uuid', version', extension')
    ensures userId == userId' && uuid == uuid' && version == version' && extension == extension'
  {
    BuildPathLayout(storagePath, userId, uuid, version, extension);
    BuildPathLayout(storagePath, userId', uuid', version', extension');
    var id, id' := LongToString(userId), LongToString(userId');
    var file, file' := version.Name() + "." + extension, version'.Name() + "." + extension';
    var rest, rest' := uuid + "/" + file, uuid' + "/" + file';
    CancelPrefix(storagePath + "/", id + "/" + rest, id' + "/" + rest');
    LongToStringHasNoSlash(userId);
    LongToStringHasNoSlash(userId');
    SplitAt('/', id, rest, id', rest');
    LongToStringInjective(userId, userId');
    UuidHasNoSeparator(uuid);
    UuidHasNoSeparator(uuid');
    SplitAt('/', uuid, file, uuid', file');
    SplitAt('.', version.Name(), extension, version'.Name(), extension');
    VersionNamesDistinct(version, version');
  }

  /** `generateFilePaths` for one UUID: the three keys of one upload. */
  function PathsFor(storagePath: string, userId: Long, uuid: Uuid, extension: string): (r: AvatarObjectPaths)
    ensures r.originalPath.Some? && r.thumbnailPath.Some? && r.profilePath.Some?
  {
    AvatarObjectPaths(Some(BuildPath(storagePath, userId, uuid, Original, extension)),
                      Some(BuildPath(storagePath, userId, uuid, Thumbnail, extension)),
                      Some(BuildPath(storagePath, userId, uuid, Profile, extension)))
  }

  /** The keys of a triple, in the order original, thumbnail, profile. */
  function Keys(p: AvatarObjectPaths): (r: seq<Option<string>>)
    ensures |r| == 3
  {
    [p.originalPath, p.thumbnailPath, p.profilePath]
  }

  /** Within one upload the three keys are pairwise distinct. */
  lemma {:induction false} PathsForDistinct(storagePath: string, userId: Long, uuid: Uuid, extension: string)
    ensures forall i, j :: 0 <= i < j < 3 ==>
              Keys(PathsFor(storagePath, userId, uuid, extension))[i]
              != Keys(PathsFor(storagePath, userId, uuid, extension))[j]
  {
    var o := BuildPath(storagePath, userId, uuid, Original, extension);
    var t := BuildPath(storagePath, userId, uuid, Thumbnail, extension);
    var p := BuildPath(storagePath, userId, uuid, Profile, extension);
    if o == t { BuildPathInjective(storagePath, userId, uuid, Original, extension, userId, uuid, Thumbnail, extension); }
    if o == p { BuildPathInjective(storagePath, userId, uuid, Original, extension, userId, uuid, Profile, extension); }
    if t == p { BuildPathInjective(storagePath, userId, uuid, Thumbnail, extension, userId, uuid, Profile, extension); }
  }

  /** Uploads with different UUIDs share no key, whatever their users and extensions. */
  lemma {:induction false} DistinctUuidsDisjointPaths(storagePath: string, userId: Long, uuid: Uuid, extension: string,
                                                      userId': Long, uuid': Uuid, extension': string)
    requires uuid != uuid'
    ensures forall i, j :: 0 <= i < 3 && 0 <= j < 3 ==>
              Keys(PathsFor(storagePath, userId, uuid, extension))[i]
              != Keys(PathsFor(storagePath, userId', uuid', extension'))[j]
  {
    var versions := [Original, Thumbnail, Profile];
    forall i, j | 0 <= i < 3 && 0 <= j < 3
      ensures Keys(PathsFor(storagePath, userId, uuid, extension))[i]
              != Keys(PathsFor(storagePath, userId', uuid', extension'))[j]
    {
      assert Keys(PathsFor(storagePath, userId, uuid, extension))[i]
             == Some(BuildPath(storagePath, userId, uuid, versions[i], extension));
      assert Keys(PathsFor(storagePath, userId', uuid', extension'))[j]
             == Some(BuildPath(storagePath, userId', uuid', versions[j], extension'));
      if BuildPath(storagePath, userId, uuid, versions[i], extension)
         == BuildPath(storagePath, userId', uuid', versions[j], extension') {
        BuildPathInjective(storagePath, userId, uuid, versions[i], extension,
                           userId', uuid', versions[j], extension');
      }
    }
  }

  /**
   * The component that builds the keys. It reads the storage prefix from the
   * configuration on every call and draws the next value of `UUID.randomUUID`
   * from `uuidSupply`.
   */
  class AvatarFileNameGenerator {
    const storagePath: string
    const uuidSupply: nat -> Uuid
    /** How many UUIDs have been drawn so far. */
    var drawn: nat
    /** How many times the storage prefix has been read from the configuration. */
    var storagePathReads: nat

    constructor (storagePath: string, uuidSupply: nat -> Uuid)
      ensures this.storagePath == storagePath && this.uuidSupply == uuidSupply
      ensures drawn == 0 && storagePathReads == 0
    {
      this.storagePath := storagePath;
      this.uuidSupply := uuidSupply;
      drawn := 0;
      storagePathReads := 0;
    }

    /** `generateFilePaths`: one fresh UUID and one read of the prefix, shared by all three keys. */
    method GenerateFilePaths(userId: Long, extension: string) returns (paths: AvatarObjectPaths)
      modifies this
      ensures paths == PathsFor(storagePath, userId, uuidSupply(old(drawn)), extension)
      ensures drawn == old(drawn) + 1 && storagePathReads == old(storagePathReads) + 1
    {
      var prefix := storagePath;
      storagePathReads := storagePathReads + 1;
      var uuid := uuidSupply(drawn);
      drawn := drawn + 1;
      var original := BuildPath(prefix, userId, uuid, Original, extension);
      var thumbnail := BuildPath(prefix, userId, uuid, Thumbnail, extension);
      var profile := BuildPath(prefix, userId, uuid, Profile, extension);
      paths := AvatarObjectPaths(Some(original), Some(thumbnail), Some(profile));
    }
  }
}
