/**
 * The typed avatar settings (`user.avatar.*`): where avatars are stored, the
 * two derived sizes, and the MIME types an upload may have. The constructors
 * normalise what configuration supplies and reject what cannot be used.
 */
module AvatarConfig {

  import opened JavaLang
  import opened JavaText

  const STORAGE_PATH_NULL_MESSAGE := "storagePath не может быть null"
  const STORAGE_PATH_EMPTY_MESSAGE := "storagePath не может быть пустым"
  const SIZES_NULL_MESSAGE := "sizes не может быть null"
  const MIME_TYPES_NULL_MESSAGE := "allowedMimeTypes не может быть null"
  const MIME_TYPE_NULL_MESSAGE := "MIME-тип не может быть null"
  const MIME_TYPE_EMPTY_MESSAGE := "MIME-тип не может быть пустым"
  const THUMBNAIL_NULL_MESSAGE := "thumbnail не может быть null"
  const PROFILE_NULL_MESSAGE := "profile не может быть null"
  const MAX_SIDE_MESSAGE := "maxSide должен быть положительным"

  /** The allow-list bound when the configuration names none. */
  const DEFAULT_ALLOWED_MIME_TYPES: seq<string> := ["image/jpeg", "image/png", "image/webp"]

  /** The largest side, in pixels, of one derived avatar version. */
  datatype AvatarSizeProperties = AvatarSizeProperties(maxSide: Int32)

  datatype Sizes = Sizes(thumbnail: AvatarSizeProperties, profile: AvatarSizeProperties)

  datatype AvatarProperties = AvatarProperties(storagePath: string, sizes: Sizes, allowedMimeTypes: seq<string>)

  /** The `AvatarSizeProperties` constructor. */
  function NewAvatarSizeProperties(maxSide: Int32): (r: Result<AvatarSizeProperties, JavaException>)
    ensures r.Success? <==> maxSide > 0
    ensures r.Success? ==> r.value.maxSide == maxSide
    ensures r.Failure? ==> r.error == IllegalArgumentException(MAX_SIDE_MESSAGE)
  {
    if maxSide <= 0 then Failure(IllegalArgumentException(MAX_SIDE_MESSAGE))
    else Success(AvatarSizeProperties(maxSide))
  }

  /** The `Sizes` constructor; the thumbnail is checked first. */
  function NewSizes(thumbnail: Option<AvatarSizeProperties>, profile: Option<AvatarSizeProperties>)
    : (r: Result<Sizes, JavaException>)
    ensures r.Success? <==> thumbnail.Some? && profile.Some?
    ensures r.Success? ==> r.value == Sizes(thumbnail.value, profile.value)
    ensures thumbnail.None? ==> r == Failure(NullPointerException(Some(THUMBNAIL_NULL_MESSAGE)))
    ensures thumbnail.Some? && profile.None? ==> r == Failure(NullPointerException(Some(PROFILE_NULL_MESSAGE)))
  {
    if thumbnail.None? then Failure(NullPointerException(Some(THUMBNAIL_NULL_MESSAGE)))
    else if profile.None? then Failure(NullPointerException(Some(PROFILE_NULL_MESSAGE)))
    else Success(Sizes(thumbnail.value, profile.value))
  }

  /** `normalizeStoragePath`: trimmed, then one trailing `/` removed if present. */
  function NormalizeStoragePath(storagePath: Option<string>): (r: Result<string, JavaException>)
    ensures storagePath.None? ==> r == Failure(NullPointerException(Some(STORAGE_PATH_NULL_MESSAGE)))
    ensures storagePath.Some? ==> (r.Failure? <==> Trim(storagePath.value) == [])
    ensures r.Failure? && storagePath.Some? ==> r.error == IllegalArgumentException(STORAGE_PATH_EMPTY_MESSAGE)
    ensures r.Success? ==>
              (r.value + "/" == Trim(storagePath.value))
              || (r.value == Trim(storagePath.value) && !EndsWith(r.value, "/"))
  {
    if storagePath.None? then Failure(NullPointerException(Some(STORAGE_PATH_NULL_MESSAGE)))
    else
      var value := Trim(storagePath.value);
      if value == [] then Failure(IllegalArgumentException(STORAGE_PATH_EMPTY_MESSAGE))
      else if EndsWith(value, "/") then Success(value[..|value| - 1])
      else Success(value)
  }

  /** A leading `/` survives normalisation, unless the path is that single character. */
  lemma LeadingSlashKept(storagePath: string)
    requires |Trim(storagePath)| > 1 && Trim(storagePath)[0] == '/'
    ensures NormalizeStoragePath(Some(storagePath)).Success?
    ensures NormalizeStoragePath(Some(storagePath)).value[0] == '/'
  {
  }

  /** One allow-list entry: trimmed, rejected when nothing is left, lower-cased. */
  function NormalizeMimeType(value: Option<string>): (r: Result<string, JavaException>)
    ensures value.None? ==> r == Failure(NullPointerException(Some(MIME_TYPE_NULL_MESSAGE)))
    ensures value.Some? ==> (r.Failure? <==> Trim(value.value) == [])
    ensures r.Failure? && value.Some? ==> r.error == IllegalArgumentException(MIME_TYPE_EMPTY_MESSAGE)
    ensures r.Success? ==> r.value != [] && IsLowerCase(r.value) && Trim(r.value) == r.value
  {
    if value.None? then Failure(NullPointerException(Some(MIME_TYPE_NULL_MESSAGE)))
    else
      var trimmed := Trim(value.value);
      if trimmed == [] then Failure(IllegalArgumentException(MIME_TYPE_EMPTY_MESSAGE))
      else
        ToLowerIsLowerCase(trimmed);
        TrimOfLowerTrimmed(value.value);
        Success(ToLower(trimmed))
  }

  /** A normalised entry normalises to itself. */
  lemma {:induction false} NormalizeMimeTypeIdempotent(value: Option<string>)
    requires NormalizeMimeType(value).Success?
    ensures NormalizeMimeType(Some(NormalizeMimeType(value).value)) == NormalizeMimeType(value)
  {
    var t := NormalizeMimeType(value).value;
    ToLowerOfLowerCase(t);
  }

  /** `Stream.map(f).toList()` with a mapping function that may throw: the first entry that throws decides the outcome. */
  function MapThrowing<A, B, E>(f: A -> Result<B, E>, values: seq<A>): (r: Result<seq<B>, E>)
    ensures r.Success? <==> forall i :: 0 <= i < |values| ==> f(values[i]).Success?
    ensures r.Success? ==> |r.value| == |values|
                           && forall i :: 0 <= i < |values| ==> Success(r.value[i]) == f(values[i])
    ensures r.Failure? ==> exists i :: 0 <= i < |values| && f(values[i]) == Failure(r.error)
                                       && forall j :: 0 <= j < i ==> f(values[j]).Success?
  {
    if values == [] then Success([])
    else match f(values[0])
      case Failure(e) => Failure(e)
      case Success(head) =>
        match MapThrowing(f, values[1..])
        case Failure(e) =>
          FirstFailureShifts(f, values, e);
          Failure(e)
        case Success(tail) =>
          assert forall i :: 1 <= i < |values| ==> values[1..][i - 1] == values[i];
          Success([head] + tail)
  }

  /** A first failing entry of the tail, after a passing head, is the first failing entry of the whole list. */
  lemma FirstFailureShifts<A, B, E>(f: A -> Result<B, E>, values: seq<A>, e: E)
    requires values != [] && f(values[0]).Success?
    requires exists i :: 0 <= i < |values| - 1 && f(values[1..][i]) == Failure(e)
                         && forall j :: 0 <= j < i ==> f(values[1..][j]).Success?
    ensures exists i :: 0 <= i < |values| && f(values[i]) == Failure(e)
                        && forall j :: 0 <= j < i ==> f(values[j]).Success?
  {
    var i :| 0 <= i < |values| - 1 && f(values[1..][i]) == Failure(e)
             && forall j :: 0 <= j < i ==> f(values[1..][j]).Success?;
    assert values[1..][i] == values[i + 1];
    forall j | 0 <= j < i + 1
      ensures f(values[j]).Success?
    {
      if j > 0 {
        assert values[1..][j - 1] == values[j];
      }
    }
  }

  /** The `map` stage over the whole list: the first entry that throws decides the outcome. */
  function NormalizeMimeTypes(values: seq<Option<string>>): (r: Result<seq<string>, JavaException>)
    ensures r.Success? <==> forall i :: 0 <= i < |values| ==> NormalizeMimeType(values[i]).Success?
    ensures r.Success? ==> |r.value| == |values|
                           && forall i :: 0 <= i < |values| ==> Success(r.value[i]) == NormalizeMimeType(values[i])
    ensures r.Failure? ==> exists i :: 0 <= i < |values| && NormalizeMimeType(values[i]) == Failure(r.error)
                                       && forall j :: 0 <= j < i ==> NormalizeMimeType(values[j]).Success?
  {
    MapThrowing(NormalizeMimeType, values)
  }

  predicate NoDuplicates(s: seq<string>) {
    forall i, j :: 0 <= i < j < |s| ==> s[i] != s[j]
  }

  /** Position of the first occurrence of `x` in `s`. */
  function FirstIndex(s: seq<string>, x: string): (k: nat)
    requires x in s
    ensures k < |s| && s[k] == x && x !in s[..k]
  {
    if s[|s| - 1] == x && x !in s[..|s| - 1] then |s| - 1
    else
      assert s == s[..|s| - 1] + [s[|s| - 1]];
      var k := FirstIndex(s[..|s| - 1], x);
      assert s[..k] == s[..|s| - 1][..k];
      k
  }

  /** `Stream.distinct`: the first occurrence of every element, in order. */
  function Distinct(s: seq<string>): (r: seq<string>)
    ensures forall x :: x in r <==> x in s
    ensures NoDuplicates(r)
    ensures forall i, j :: 0 <= i < j < |r| ==> FirstIndex(s, r[i]) < FirstIndex(s, r[j])
  {
    if s == [] then []
    else
      var p := s[..|s| - 1];
      var x := s[|s| - 1];
      assert s == p + [x];
      var d := Distinct(p);
      assert forall y :: y in p ==> FirstIndex(s, y) == FirstIndex(p, y) by {
        forall y | y in p ensures FirstIndex(s, y) == FirstIndex(p, y) {
          FirstIndexOfPrefix(p, x, y);
        }
      }
      if x in d then d
      else
        assert FirstIndex(s, x) == |p|;
        d + [x]
  }

  lemma FirstIndexOfPrefix(p: seq<string>, x: string, y: string)
    requires y in p
    ensures FirstIndex(p + [x], y) == FirstIndex(p, y)
  {
    var k := FirstIndex(p, y);
    assert (p + [x])[..k] == p[..k];
  }

  lemma {:induction false} DistinctOfNoDuplicates(s: seq<string>)
    requires NoDuplicates(s)
    ensures Distinct(s) == s
    decreases |s|
  {
    if s != [] {
      var p := s[..|s| - 1];
      DistinctOfNoDuplicates(p);
      assert s[|s| - 1] !in p;
    }
  }

  /** `sanitizeMimeTypes`: every entry normalised in order, then duplicates removed. */
  function SanitizeMimeTypes(mimeTypes: Option<seq<Option<string>>>): (r: Result<seq<string>, JavaException>)
    ensures mimeTypes.None? ==> r == Failure(NullPointerException(Some(MIME_TYPES_NULL_MESSAGE)))
    ensures mimeTypes.Some? ==> (r.Success? <==> NormalizeMimeTypes(mimeTypes.value).Success?)
    ensures r.Success? ==> NoDuplicates(r.value)
    ensures r.Success? ==> forall x :: x in r.value <==> x in NormalizeMimeTypes(mimeTypes.value).value
    ensures r.Success? ==> forall i, j :: 0 <= i < j < |r.value| ==>
              FirstIndex(NormalizeMimeTypes(mimeTypes.value).value, r.value[i])
              < FirstIndex(NormalizeMimeTypes(mimeTypes.value).value, r.value[j])
  {
    if mimeTypes.None? then Failure(NullPointerException(Some(MIME_TYPES_NULL_MESSAGE)))
    else match NormalizeMimeTypes(mimeTypes.value)
      case Failure(e) => Failure(e)
      case Success(normalized) => Success(Distinct(normalized))
  }

  /** Every entry of a sanitised list is non-empty, lower-case and trimmed. */
  lemma SanitizedEntries(mimeTypes: Option<seq<Option<string>>>, x: string)
    requires SanitizeMimeTypes(mimeTypes).Success? && x in SanitizeMimeTypes(mimeTypes).value
    ensures x != [] && IsLowerCase(x) && Trim(x) == x
    ensures NormalizeMimeType(Some(x)) == Success(x)
  {
    var normalized := NormalizeMimeTypes(mimeTypes.value).value;
    var k :| 0 <= k < |normalized| && normalized[k] == x;
    assert Success(normalized[k]) == NormalizeMimeType(mimeTypes.value[k]);
    NormalizeMimeTypeIdempotent(mimeTypes.value[k]);
  }

  /** A list whose entries are already normalised passes the `map` stage unchanged. */
  lemma NormalizeMimeTypesOfNormalized(s: seq<string>)
    requires forall i :: 0 <= i < |s| ==> NormalizeMimeType(Some(s[i])) == Success(s[i])
    ensures NormalizeMimeTypes(AsConfigured(s)) == Success(s)
  {
    var n := NormalizeMimeTypes(AsConfigured(s));
    assert n.Success?;
    assert n.value == s;
  }

  /** The values of a sanitised list, as a configured list without nulls. */
  function AsConfigured(s: seq<string>): (r: seq<Option<string>>)
    ensures |r| == |s| && forall i :: 0 <= i < |s| ==> r[i] == Some(s[i])
  {
    seq(|s|, i requires 0 <= i < |s| => Some(s[i]))
  }

  /** A duplicate-free list of normalised entries is its own sanitised form. */
  lemma SanitizeMimeTypesOfSanitized(s: seq<string>)
    requires NoDuplicates(s)
    requires forall i :: 0 <= i < |s| ==> NormalizeMimeType(Some(s[i])) == Success(s[i])
    ensures SanitizeMimeTypes(Some(AsConfigured(s))) == Success(s)
  {
    NormalizeMimeTypesOfNormalized(s);
    DistinctOfNoDuplicates(s);
  }

  /** Sanitising a sanitised allow-list changes nothing. */
  lemma {:induction false} SanitizeMimeTypesIdempotent(mimeTypes: Option<seq<Option<string>>>)
    requires SanitizeMimeTypes(mimeTypes).Success?
    ensures SanitizeMimeTypes(Some(AsConfigured(SanitizeMimeTypes(mimeTypes).value))) == SanitizeMimeTypes(mimeTypes)
  {
    var out := SanitizeMimeTypes(mimeTypes).value;
    forall i | 0 <= i < |out| ensures NormalizeMimeType(Some(out[i])) == Success(out[i]) {
      SanitizedEntries(mimeTypes, out[i]);
    }
    SanitizeMimeTypesOfSanitized(out);
  }

  /** A trimmed, lower-case, non-empty entry normalises to itself. */
  lemma NormalizedFixedPoint(x: string)
    requires x != [] && !IsTrimmable(x[0]) && !IsTrimmable(x[|x| - 1]) && IsLowerCase(x)
    ensures NormalizeMimeType(Some(x)) == Success(x)
  {
    TrimOfTrimmed(x);
    ToLowerOfLowerCase(x);
  }

  /** The default allow-list is already in sanitised form. */
  lemma DefaultMimeTypesAreSanitized(d: seq<string>)
    requires d == DEFAULT_ALLOWED_MIME_TYPES
    ensures SanitizeMimeTypes(Some(AsConfigured(d))) == Success(d)
  {
    assert NoDuplicates(d);
    forall i | 0 <= i < |d| ensures NormalizeMimeType(Some(d[i])) == Success(d[i]) {
      NormalizedFixedPoint(d[i]);
    }
    SanitizeMimeTypesOfSanitized(d);
  }

  /** What every constructed `AvatarProperties` satisfies. */
  predicate Valid(p: AvatarProperties) {
    && p.sizes.thumbnail.maxSide > 0 && p.sizes.profile.maxSide > 0
    && NoDuplicates(p.allowedMimeTypes)
    && forall i :: 0 <= i < |p.allowedMimeTypes| ==>
         p.allowedMimeTypes[i] != [] && IsLowerCase(p.allowedMimeTypes[i]) && Trim(p.allowedMimeTypes[i]) == p.allowedMimeTypes[i]
  }

  /**
   * The `AvatarProperties` constructor: the storage path is checked first, then
   * the sizes, then the allow-list. Sizes can only be built with positive sides.
   */
  function NewAvatarProperties(storagePath: Option<string>, sizes: Option<Sizes>, allowedMimeTypes: Option<seq<Option<string>>>)
    : (r: Result<AvatarProperties, JavaException>)
    requires sizes.Some? ==> sizes.value.thumbnail.maxSide > 0 && sizes.value.profile.maxSide > 0
    ensures NormalizeStoragePath(storagePath).Failure? ==> r == Failure(NormalizeStoragePath(storagePath).error)
    ensures NormalizeStoragePath(storagePath).Success? && sizes.None? ==>
              r == Failure(NullPointerException(Some(SIZES_NULL_MESSAGE)))
    ensures NormalizeStoragePath(storagePath).Success? && sizes.Some? ==>
              (r.Success? <==> SanitizeMimeTypes(allowedMimeTypes).Success?)
    ensures r.Success? ==> r.value.storagePath == NormalizeStoragePath(storagePath).value
                           && r.value.sizes == sizes.value
                           && r.value.allowedMimeTypes == SanitizeMimeTypes(allowedMimeTypes).value
    ensures r.Success? ==> Valid(r.value)
  {
    match NormalizeStoragePath(storagePath)
    case Failure(e) => Failure(e)
    case Success(path) =>
      if sizes.None? then Failure(NullPointerException(Some(SIZES_NULL_MESSAGE)))
      else match SanitizeMimeTypes(allowedMimeTypes)
        case Failure(e) => Failure(e)
        case Success(mimeTypes) =>
          var props := AvatarProperties(path, sizes.value, mimeTypes);
          assert Valid(props) by {
            forall i | 0 <= i < |mimeTypes| ensures mimeTypes[i] != [] && IsLowerCase(mimeTypes[i]) && Trim(mimeTypes[i]) == mimeTypes[i] {
              SanitizedEntries(allowedMimeTypes, mimeTypes[i]);
            }
          }
          Success(props)
  }
}
