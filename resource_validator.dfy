/**
 * The check an uploaded avatar file must pass before anything is stored:
 * the file, its name and its declared content type are inspected in a fixed
 * order, every check with its own failure, and on success the file's
 * canonical extension is returned.
 */
module ResourceValidation {

  import opened JavaLang
  import opened JavaText
  import opened ErrorCodes
  import opened ServiceExceptions

  /**
   * An uploaded multipart file as the validator and the upload see it.
   * `content` is what `getBytes` returns, or `None` when reading it fails.
   */
  datatype MultipartFile = MultipartFile(
    originalFilename: Option<string>,
    contentType: Option<string>,
    empty: bool,
    size: Long,
    content: Option<Bytes>)

  /** The failures, listed in the order the checks run. */
  datatype ValidationError =
    | FileNotFound
    | FileEmpty
    | FilenameMissing
    | MimeUndetermined
    | MimeInvalid
    | MimeExpectedImage
    | MimeNotAllowed
    | ExtensionUndetermined
    | ExtensionUnsupported
    | ExtensionMimeMismatch
  {
    /** Position of the check that raises this failure. */
    function Rank(): nat {
      match this
      case FileNotFound => 0
      case FileEmpty => 1
      case FilenameMissing => 2
      case MimeUndetermined => 3
      case MimeInvalid => 4
      case MimeExpectedImage => 5
      case MimeNotAllowed => 6
      case ExtensionUndetermined => 7
      case ExtensionUnsupported => 8
      case ExtensionMimeMismatch => 9
    }

    function Message(): string {
      match this
      case FileNotFound => "Файл не найден"
      case FileEmpty => "Файл пустой"
      case FilenameMissing => "Не указано имя файла"
      case MimeUndetermined => "Не удалось определить MIME-тип файла"
      case MimeInvalid => "Некорректный MIME-тип файла"
      case MimeExpectedImage => "Ожидался MIME-тип изображения"
      case MimeNotAllowed => "Недопустимый MIME-тип файла"
      case ExtensionUndetermined => "Не удалось определить расширение файла"
      case ExtensionUnsupported => "Неподдерживаемое расширение файла"
      case ExtensionMimeMismatch => "Расширение файла не соответствует MIME-типу"
    }
  }

  /** No failure message is blank, so the exception keeps it as given. */
  lemma MessageNotBlank(e: ValidationError)
    ensures !IsBlank(e.Message())
  {
    match e
    case FileNotFound => assert e.Message()[0] == '\U{0424}';
    case FileEmpty => assert e.Message()[0] == '\U{0424}';
    case FilenameMissing => assert e.Message()[0] == '\U{041d}';
    case MimeUndetermined => assert e.Message()[0] == '\U{041d}';
    case MimeInvalid => assert e.Message()[0] == '\U{041d}';
    case MimeExpectedImage => assert e.Message()[0] == '\U{041e}';
    case MimeNotAllowed => assert e.Message()[0] == '\U{041d}';
    case ExtensionUndetermined => assert e.Message()[0] == '\U{041d}';
    case ExtensionUnsupported => assert e.Message()[0] == '\U{041d}';
    case ExtensionMimeMismatch =>
      var m := e.Message();
      assert m == "Расширение файла не соответствует MIME-типу";
      assert m[0] == '\U{0420}';
  }

  /** The canonical extensions an avatar can be stored with. */
  datatype Extension = Jpg | Png | Webp {
    function Name(): string {
      match this
      case Jpg => "jpg"
      case Png => "png"
      case Webp => "webp"
    }
  }

  const IMAGE_TYPE := "image"

  /** The synonym table for extensions: `jpeg` and `jpg` are both `jpg`. */
  function CanonicalExtension(ext: string): (r: Option<Extension>)
    ensures r.Some? <==> ext == "jpg" || ext == "jpeg" || ext == "png" || ext == "webp"
    ensures r.Some? ==> r.value.Name() == ext || (ext == "jpeg" && r.value == Jpg)
  {
    if ext == "jpg" || ext == "jpeg" then Some(Jpg)
    else if ext == "png" then Some(Png)
    else if ext == "webp" then Some(Webp)
    else None
  }

  /** Every canonical extension is its own canonical form. */
  lemma CanonicalOfName(e: Extension)
    ensures CanonicalExtension(e.Name()) == Some(e)
  {
  }

  /** The MIME subtype table, falling back to the subtype itself through the synonym table. */
  function MimeExtension(subtype: string): Option<Extension> {
    if subtype == "jpeg" then Some(Jpg)
    else if subtype == "png" then Some(Png)
    else if subtype == "webp" then Some(Webp)
    else CanonicalExtension(subtype)
  }

  /** Because the fallback goes through the synonym table, the MIME table adds no mapping of its own. */
  lemma MimeTableAgreesWithSynonyms(subtype: string)
    ensures MimeExtension(subtype) == CanonicalExtension(subtype)
  {
  }

  /** The content type as compared with the allow-list: trimmed and lower-cased. */
  function NormalizeMime(contentType: string): string {
    ToLower(Trim(contentType))
  }

  /** `type/subtype` split at its only `/`, both parts non-empty. */
  function ParseMime(mime: string): (r: Option<(string, string)>)
    ensures r.None? <==> '/' !in mime || mime[0] == '/' || mime[|mime| - 1] == '/' || '/' in mime[IndexOf(mime, '/').value + 1..]
    ensures r.Some? ==> '/' !in r.value.0 && '/' !in r.value.1 && r.value.0 != [] && r.value.1 != []
                        && mime == r.value.0 + "/" + r.value.1
  {
    match IndexOf(mime, '/')
    case None => None
    case Some(i) =>
      var t := mime[..i];
      var sub := mime[i + 1..];
      assert mime == t + "/" + sub;
      if t == [] || sub == [] || '/' in sub then None else Some((t, sub))
  }

  /** The text after the last `.` of a filename, if any. */
  function FilenameExtension(filename: string): (r: Option<string>)
    ensures r.Some? ==> r.value != [] && '.' !in r.value && EndsWith(filename, "." + r.value)
    ensures r.None? <==> '.' !in filename || filename[|filename| - 1] == '.'
  {
    match LastIndexOf(filename, '.')
    case None => None
    case Some(i) =>
      var ext := filename[i + 1..];
      assert filename[|filename| - |"." + ext|..] == "." + ext;
      if ext == [] then None else Some(ext)
  }

  /**
   * What the checks look at, derived once from the file: its flags, whether
   * its name and content type are missing or blank, the normalised content
   * type and its parts, and the extension each side names.
   */
  datatype Inspection = Inspection(
    present: bool,
    empty: bool,
    size: int,
    nameMissing: bool,
    typeMissing: bool,
    mime: string,
    parts: Option<(string, string)>,
    nameExtension: Option<string>,
    nameCanonical: Option<Extension>,
    mimeCanonical: Option<Extension>)

  function Inspect(file: Option<MultipartFile>): (v: Inspection)
    ensures v.present <==> file.Some?
    ensures file.Some? ==> v.empty == file.value.empty && v.size == file.value.size
    ensures file.Some? ==> (v.nameMissing <==> file.value.originalFilename.None? || IsBlank(file.value.originalFilename.value))
    ensures file.Some? ==> (v.typeMissing <==> file.value.contentType.None? || IsBlank(file.value.contentType.value))
    ensures file.Some? && file.value.contentType.Some? ==>
              v.mime == NormalizeMime(file.value.contentType.value) && v.parts == ParseMime(v.mime)
    ensures file.Some? && file.value.originalFilename.Some? ==>
              v.nameExtension == FilenameExtension(file.value.originalFilename.value)
    ensures v.nameExtension.Some? ==> v.nameCanonical == CanonicalExtension(ToLower(v.nameExtension.value))
    ensures v.parts.Some? ==> v.mimeCanonical == MimeExtension(v.parts.value.1)
  {
    if file.None? then Inspection(false, false, 0, true, true, "", None, None, None, None)
    else
      var f := file.value;
      var mime := if f.contentType.Some? then NormalizeMime(f.contentType.value) else "";
      var parts := if f.contentType.Some? then ParseMime(mime) else None;
      var ext := if f.originalFilename.Some? then FilenameExtension(f.originalFilename.value) else None;
      Inspection(
        true, f.empty, f.size,
        f.originalFilename.None? || IsBlank(f.originalFilename.value),
        f.contentType.None? || IsBlank(f.contentType.value),
        mime, parts, ext,
        if ext.Some? then CanonicalExtension(ToLower(ext.value)) else None,
        if parts.Some? then MimeExtension(parts.value.1) else None)
  }

  /**
   * Whether the check raising `e` passes. Each check is stated on its own;
   * where a value it inspects is missing it passes, as an earlier check has
   * then failed.
   */
  predicate Passes(e: ValidationError, v: Inspection, allowed: seq<string>) {
    match e
    case FileNotFound => v.present
    case FileEmpty => v.present ==> !v.empty && v.size > 0
    case FilenameMissing => v.present ==> !v.nameMissing
    case MimeUndetermined => v.present ==> !v.typeMissing
    case MimeInvalid => v.present && !v.typeMissing ==> v.parts.Some?
    case MimeExpectedImage => v.parts.Some? ==> v.parts.value.0 == IMAGE_TYPE
    case MimeNotAllowed => v.present && !v.typeMissing ==> v.mime in allowed
    case ExtensionUndetermined => v.present && !v.nameMissing ==> v.nameExtension.Some?
    case ExtensionUnsupported => v.nameExtension.Some? ==> v.nameCanonical.Some?
    case ExtensionMimeMismatch => v.nameCanonical.Some? && v.parts.Some? ==> v.mimeCanonical == v.nameCanonical
  }

  /** The decision taken on an inspected file, check by check. */
  function Decide(v: Inspection, allowed: seq<string>): Result<Extension, ValidationError> {
    if !v.present then Failure(FileNotFound)
    else if v.empty || v.size <= 0 then Failure(FileEmpty)
    else if v.nameMissing then Failure(FilenameMissing)
    else if v.typeMissing then Failure(MimeUndetermined)
    else if v.parts.None? then Failure(MimeInvalid)
    else if v.parts.value.0 != IMAGE_TYPE then Failure(MimeExpectedImage)
    else if v.mime !in allowed then Failure(MimeNotAllowed)
    else if v.nameExtension.None? then Failure(ExtensionUndetermined)
    else if v.nameCanonical.None? then Failure(ExtensionUnsupported)
    else if v.mimeCanonical != v.nameCanonical then Failure(ExtensionMimeMismatch)
    else Success(v.nameCanonical.value)
  }

  /**
   * `getValidatedExtension`: the checks in order. On success the filename's
   * extension and the content type agree on the extension returned, and the
   * content type is on the allow-list.
   */
  function GetValidatedExtension(file: Option<MultipartFile>, allowed: seq<string>): (r: Result<Extension, ValidationError>)
    ensures r.Success? ==> file.Some? && file.value.originalFilename.Some? && file.value.contentType.Some?
    ensures r.Success? ==> NormalizeMime(file.value.contentType.value) in allowed
    ensures r.Success? ==> FilenameExtension(file.value.originalFilename.value).Some?
                           && CanonicalExtension(ToLower(FilenameExtension(file.value.originalFilename.value).value)) == Some(r.value)
    ensures r.Success? ==> ParseMime(NormalizeMime(file.value.contentType.value)).Some?
                           && ParseMime(NormalizeMime(file.value.contentType.value)).value.0 == IMAGE_TYPE
                           && MimeExtension(ParseMime(NormalizeMime(file.value.contentType.value)).value.1) == Some(r.value)
  {
    Decide(Inspect(file), allowed)
  }

  /** The checks a failure with rank `k` implies have passed. */
  predicate PassedBefore(k: nat, v: Inspection, allowed: seq<string>) {
    forall e: ValidationError :: e.Rank() < k ==> Passes(e, v, allowed)
  }

  lemma RankInjective(d: ValidationError, e: ValidationError)
    requires d.Rank() == e.Rank()
    ensures d == e
  {
  }

  /** The checks before rank `k + 1` are those before `k` and the one of rank `k`. */
  lemma {:induction false} PassedBeforeStep(k: nat, e: ValidationError, v: Inspection, allowed: seq<string>)
    requires e.Rank() == k && PassedBefore(k, v, allowed) && Passes(e, v, allowed)
    ensures PassedBefore(k + 1, v, allowed)
  {
    forall d: ValidationError | d.Rank() < k + 1 ensures Passes(d, v, allowed) {
      if d.Rank() == k {
        RankInjective(d, e);
      }
    }
  }

  /** The decision walked check by check: each stage fails with its own error or passes on. */
  lemma {:induction false} DecisionStages(v: Inspection, allowed: seq<string>)
    ensures Decide(v, allowed).Failure? ==>
              !Passes(Decide(v, allowed).error, v, allowed) && PassedBefore(Decide(v, allowed).error.Rank(), v, allowed)
    ensures Decide(v, allowed).Success? ==> PassedBefore(ExtensionMimeMismatch.Rank() + 1, v, allowed)
  {
    if !v.present { return; }
    PassedBeforeStep(0, FileNotFound, v, allowed);
    if v.empty || v.size <= 0 { return; }
    PassedBeforeStep(1, FileEmpty, v, allowed);
    if v.nameMissing { return; }
    PassedBeforeStep(2, FilenameMissing, v, allowed);
    if v.typeMissing { return; }
    PassedBeforeStep(3, MimeUndetermined, v, allowed);
    if v.parts.None? { return; }
    PassedBeforeStep(4, MimeInvalid, v, allowed);
    if v.parts.value.0 != IMAGE_TYPE { return; }
    PassedBeforeStep(5, MimeExpectedImage, v, allowed);
    if v.mime !in allowed { return; }
    PassedBeforeStep(6, MimeNotAllowed, v, allowed);
    if v.nameExtension.None? { return; }
    PassedBeforeStep(7, ExtensionUndetermined, v, allowed);
    if v.nameCanonical.None? { return; }
    PassedBeforeStep(8, ExtensionUnsupported, v, allowed);
    if v.mimeCanonical != v.nameCanonical { return; }
    PassedBeforeStep(9, ExtensionMimeMismatch, v, allowed);
  }

  /** The error reported is that of the first check, in order, that fails. */
  lemma {:induction false} FirstFailingCheck(file: Option<MultipartFile>, allowed: seq<string>)
    requires GetValidatedExtension(file, allowed).Failure?
    ensures !Passes(GetValidatedExtension(file, allowed).error, Inspect(file), allowed)
    ensures PassedBefore(GetValidatedExtension(file, allowed).error.Rank(), Inspect(file), allowed)
  {
    DecisionStages(Inspect(file), allowed);
  }

  /** Validation succeeds exactly when every check passes. */
  lemma {:induction false} SucceedsIffAllChecksPass(file: Option<MultipartFile>, allowed: seq<string>)
    ensures GetValidatedExtension(file, allowed).Success? <==> forall e: ValidationError :: Passes(e, Inspect(file), allowed)
  {
    DecisionSucceedsIffAllPass(Inspect(file), allowed);
  }

  lemma {:induction false} DecisionSucceedsIffAllPass(v: Inspection, allowed: seq<string>)
    ensures Decide(v, allowed).Success? <==> forall e: ValidationError :: Passes(e, v, allowed)
  {
    DecisionStages(v, allowed);
    if Decide(v, allowed).Success? {
      forall e: ValidationError ensures Passes(e, v, allowed) {
        assert e.Rank() < ExtensionMimeMismatch.Rank() + 1;
      }
    }
  }

  /** A file rejected before the allow-list check is rejected alike whatever the allow-list holds. */
  lemma EarlyFailureIgnoresAllowList(file: Option<MultipartFile>, allowed: seq<string>, other: seq<string>)
    requires GetValidatedExtension(file, allowed).Failure?
    requires GetValidatedExtension(file, allowed).error.Rank() < MimeNotAllowed.Rank()
    ensures GetValidatedExtension(file, other) == GetValidatedExtension(file, allowed)
  {
    DecisionIgnoresAllowListEarly(Inspect(file), allowed, other);
  }

  lemma DecisionIgnoresAllowListEarly(v: Inspection, allowed: seq<string>, other: seq<string>)
    requires Decide(v, allowed).Failure? && Decide(v, allowed).error.Rank() < MimeNotAllowed.Rank()
    ensures Decide(v, other) == Decide(v, allowed)
  {
  }

  /** An empty allow-list rejects every file. */
  lemma EmptyAllowListRejectsAll(file: Option<MultipartFile>)
    ensures GetValidatedExtension(file, []).Failure?
  {
  }

  /** The exception a failed validation raises: a `DataValidationException` with the check's message. */
  function ValidationException(e: ValidationError): (ex: ServiceException)
    ensures ex.errorCode == ValidationFailed && ex.message == e.Message() && ex.details == [] && ex.cause == NoCause
  {
    MessageNotBlank(e);
    Raise(ValidationFailed, e.Message(), NoCause)
  }
}
