/** The field-by-field mapping between a user's stored avatar keys and their transfer object. */
module AvatarMapping {

  import opened JavaLang
  import opened Users

  /** The transfer form of the three avatar keys (`original`, `thumbnail`, `profile`). */
  datatype AvatarObjectPaths = AvatarObjectPaths(originalPath: Option<string>, thumbnailPath: Option<string>,
                                                 profilePath: Option<string>)

  /** `toDto`: null stays null; otherwise each key lands in the field of the same name. */
  function ToDto(avatar: Option<UserProfileAvatar>): (r: Option<AvatarObjectPaths>)
    ensures r.None? <==> avatar.None?
    ensures r.Some? ==> r.value.originalPath == avatar.value.originalPath
                        && r.value.thumbnailPath == avatar.value.thumbnailPath
                        && r.value.profilePath == avatar.value.profilePath
  {
    match avatar
    case None => None
    case Some(a) => Some(AvatarObjectPaths(a.originalPath, a.thumbnailPath, a.profilePath))
  }

  /** `toEntity`: the inverse copy. */
  function ToEntity(paths: Option<AvatarObjectPaths>): (r: Option<UserProfileAvatar>)
    ensures r.None? <==> paths.None?
    ensures r.Some? ==> r.value.originalPath == paths.value.originalPath
                        && r.value.thumbnailPath == paths.value.thumbnailPath
                        && r.value.profilePath == paths.value.profilePath
  {
    match paths
    case None => None
    case Some(p) => Some(UserProfileAvatar(p.originalPath, p.thumbnailPath, p.profilePath))
  }

  lemma {:induction false} ToDtoOfToEntity(paths: Option<AvatarObjectPaths>)
    ensures ToDto(ToEntity(paths)) == paths
  {
  }

  lemma {:induction false} ToEntityOfToDto(avatar: Option<UserProfileAvatar>)
    ensures ToEntity(ToDto(avatar)) == avatar
  {
  }
}
