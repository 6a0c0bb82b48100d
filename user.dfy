/**
 * The user aggregate: a persistent entity whose profile fields are changed in
 * place by partial updates, and whose avatar reference is set or cleared.
 */
module Users {

  import opened JavaLang

  /** The storage keys of a user's three avatar versions, each possibly null. */
  datatype UserProfileAvatar = UserProfileAvatar(originalPath: Option<string>, thumbnailPath: Option<string>,
                                                 profilePath: Option<string>)

  /** The country a user lives in (its list of residents is not modelled). */
  datatype Country = Country(id: Option<Long>, title: Option<string>)

  /** The value of every field of a `User`, for stating what an operation leaves unchanged. */
  datatype UserState = UserState(
    id: Option<Long>,
    username: Option<string>,
    email: Option<string>,
    phone: Option<string>,
    active: bool,
    aboutMe: Option<string>,
    country: Option<Country>,
    city: Option<string>,
    experience: Option<Short>,
    avatar: Option<UserProfileAvatar>,
    createdAt: Option<Timestamp>,
    updatedAt: Option<Timestamp>)

  /** The arguments of `updateProfile`; `None` (null) means "keep the current value". */
  datatype ProfileUpdate = ProfileUpdate(
    username: Option<string>,
    email: Option<string>,
    phone: Option<string>,
    active: Option<bool>,
    aboutMe: Option<string>,
    country: Option<Country>,
    city: Option<string>,
    experience: Option<Short>)

  function Keep<T>(current: T, replacement: Option<T>): T {
    if replacement.Some? then replacement.value else current
  }

  function Prefer<T>(later: Option<T>, earlier: Option<T>): (r: Option<T>)
    ensures later.Some? ==> r == later
    ensures later.None? ==> r == earlier
  {
    if later.Some? then later else earlier
  }

  /** The profile after a partial update: each field takes its argument when one is given. */
  function ApplyUpdate(s: UserState, u: ProfileUpdate): (r: UserState)
    ensures r.id == s.id && r.avatar == s.avatar && r.createdAt == s.createdAt && r.updatedAt == s.updatedAt
    ensures u.username.Some? ==> r.username == u.username
    ensures u.username.None? ==> r.username == s.username
    ensures u.email.Some? ==> r.email == u.email
    ensures u.email.None? ==> r.email == s.email
    ensures u.phone.Some? ==> r.phone == u.phone
    ensures u.phone.None? ==> r.phone == s.phone
    ensures r.active == if u.active.Some? then u.active.value else s.active
    ensures u.aboutMe.Some? ==> r.aboutMe == u.aboutMe
    ensures u.aboutMe.None? ==> r.aboutMe == s.aboutMe
    ensures u.country.Some? ==> r.country == u.country
    ensures u.country.None? ==> r.country == s.country
    ensures u.city.Some? ==> r.city == u.city
    ensures u.city.None? ==> r.city == s.city
    ensures u.experience.Some? ==> r.experience == u.experience
    ensures u.experience.None? ==> r.experience == s.experience
  {
    UserState(s.id, Prefer(u.username, s.username), Prefer(u.email, s.email), Prefer(u.phone, s.phone),
              Keep(s.active, u.active), Prefer(u.aboutMe, s.aboutMe), Prefer(u.country, s.country),
              Prefer(u.city, s.city), Prefer(u.experience, s.experience), s.avatar, s.createdAt, s.updatedAt)
  }

  const NO_CHANGE := ProfileUpdate(None, None, None, None, None, None, None, None)

  /** An update with every argument null changes nothing. */
  lemma ApplyNoChange(s: UserState)
    ensures ApplyUpdate(s, NO_CHANGE) == s
  {
  }

  /** Repeating an update has no further effect. */
  lemma ApplyUpdateIdempotent(s: UserState, u: ProfileUpdate)
    ensures ApplyUpdate(ApplyUpdate(s, u), u) == ApplyUpdate(s, u)
  {
  }

  /** Two updates in a row act as one whose given arguments are the later ones, else the earlier ones. */
  lemma ApplyUpdateCompose(s: UserState, u: ProfileUpdate, v: ProfileUpdate)
    ensures ApplyUpdate(ApplyUpdate(s, u), v) == ApplyUpdate(s, Merge(u, v))
  {
  }

  function Merge(u: ProfileUpdate, v: ProfileUpdate): ProfileUpdate {
    ProfileUpdate(Prefer(v.username, u.username), Prefer(v.email, u.email), Prefer(v.phone, u.phone),
                  Prefer(v.active, u.active), Prefer(v.aboutMe, u.aboutMe), Prefer(v.country, u.country),
                  Prefer(v.city, u.city), Prefer(v.experience, u.experience))
  }

  class User {
    var id: Option<Long>
    var username: Option<string>
    var email: Option<string>
    var phone: Option<string>
    var active: bool
    var aboutMe: Option<string>
    var country: Option<Country>
    var city: Option<string>
    var experience: Option<Short>
    var userProfileAvatar: Option<UserProfileAvatar>
    var createdAt: Option<Timestamp>
    var updatedAt: Option<Timestamp>

    function State(): UserState
      reads this
    {
      UserState(id, username, email, phone, active, aboutMe, country, city, experience, userProfileAvatar,
                createdAt, updatedAt)
    }

    /**
     * `createUser` (the builder): a new, unsaved user holding the given values;
     * a null `active` leaves the field's initial value `true`.
     */
    constructor CreateUser(username: Option<string>, email: Option<string>, phone: Option<string>,
                           active: Option<bool>, aboutMe: Option<string>, country: Option<Country>,
                           city: Option<string>, experience: Option<Short>, avatar: Option<UserProfileAvatar>)
      ensures State() == UserState(None, username, email, phone, Keep(true, active), aboutMe, country, city,
                                   experience, avatar, None, None)
    {
      this.id := None;
      this.username := username;
      this.email := email;
      this.phone := phone;
      this.active := true;
      this.aboutMe := aboutMe;
      this.country := country;
      this.city := city;
      this.experience := experience;
      this.userProfileAvatar := avatar;
      this.createdAt := None;
      this.updatedAt := None;
      new;
      if active.Some? {
        this.active := active.value;
      }
    }

    /**
     * `updateProfile`: every non-null argument replaces its field, a null one
     * leaves it as it is; id, avatar and timestamps are never touched.
     */
    method UpdateProfile(u: ProfileUpdate)
      modifies this
      ensures State() == ApplyUpdate(old(State()), u)
    {
      username := Prefer(u.username, username);
      email := Prefer(u.email, email);
      phone := Prefer(u.phone, phone);
      active := Keep(active, u.active);
      aboutMe := Prefer(u.aboutMe, aboutMe);
      country := Prefer(u.country, country);
      city := Prefer(u.city, city);
      experience := Prefer(u.experience, experience);
    }

    /** `hasAvatar`: whether an avatar reference is present, whatever its keys hold. */
    function HasAvatar(): (r: bool)
      reads this
      ensures r <==> State().avatar.Some?
    {
      userProfileAvatar.Some?
    }

    /** `updateAvatar`: the avatar becomes `avatar` (null clears it); nothing else changes. */
    method UpdateAvatar(avatar: Option<UserProfileAvatar>)
      modifies this
      ensures State() == old(State()).(avatar := avatar)
      ensures HasAvatar() <==> avatar.Some?
    {
      userProfileAvatar := avatar;
    }
  }
}
