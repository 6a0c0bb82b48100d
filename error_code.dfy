/**
 * The catalogue of error codes: each code has a stable identifier, the HTTP
 * status it is answered with and a default message.
 */
module ErrorCodes {

  import opened JavaLang
  import opened JavaText

  datatype ErrorCode =
    | BindingError
    | ValidationFailed
    | AvatarUploadFailed
    | EntityNotFound
    | UserNotFound
    | AvatarNotFound
    | ConstraintViolation
    | Unauthorized
    | AccessDenied
    | FileStorageError
    | UnexpectedError
  {
    /** The stable identifier clients receive. */
    function Code(): string {
      match this
      case BindingError => "USR-1000"
      case ValidationFailed => "USR-1001"
      case AvatarUploadFailed => "USR-1002"
      case EntityNotFound => "USR-2001"
      case UserNotFound => "USR-2002"
      case AvatarNotFound => "USR-2003"
      case ConstraintViolation => "USR-3000"
      case Unauthorized => "USR-4001"
      case AccessDenied => "USR-4003"
      case FileStorageError => "USR-7000"
      case UnexpectedError => "USR-9000"
    }

    /** The numeric HTTP status the code is answered with. */
    function HttpStatus(): int {
      match this
      case BindingError => 400
      case ValidationFailed => 422
      case AvatarUploadFailed => 422
      case EntityNotFound => 404
      case UserNotFound => 404
      case AvatarNotFound => 404
      case ConstraintViolation => 409
      case Unauthorized => 401
      case AccessDenied => 403
      case FileStorageError => 500
      case UnexpectedError => 500
    }

    function DefaultMessage(): string {
      match this
      case BindingError => "Некорректные входные данные"
      case ValidationFailed => "Данные не прошли валидацию"
      case AvatarUploadFailed => "Не удалось загрузить аватар"
      case EntityNotFound => "Сущность не найдена"
      case UserNotFound => "Пользователь не найден"
      case AvatarNotFound => "Аватар не найден"
      case ConstraintViolation => "Нарушено ограничение целостности данных"
      case Unauthorized => "Требуется аутентификация"
      case AccessDenied => "Доступ запрещён"
      case FileStorageError => "Ошибка файлового хранилища"
      case UnexpectedError => "Необработанная ошибка выполнения"
    }
  }

  /** The code whose identifier is `s`, if any. */
  function FromCode(s: string): (r: Option<ErrorCode>)
    ensures r.Some? ==> r.value.Code() == s
  {
    if s == "USR-1000" then Some(BindingError)
    else if s == "USR-1001" then Some(ValidationFailed)
    else if s == "USR-1002" then Some(AvatarUploadFailed)
    else if s == "USR-2001" then Some(EntityNotFound)
    else if s == "USR-2002" then Some(UserNotFound)
    else if s == "USR-2003" then Some(AvatarNotFound)
    else if s == "USR-3000" then Some(ConstraintViolation)
    else if s == "USR-4001" then Some(Unauthorized)
    else if s == "USR-4003" then Some(AccessDenied)
    else if s == "USR-7000" then Some(FileStorageError)
    else if s == "USR-9000" then Some(UnexpectedError)
    else None
  }

  /** Looking a code's identifier up finds that code again, so no two codes share an identifier. */
  lemma FromCodeOfCode(e: ErrorCode)
    ensures FromCode(e.Code()) == Some(e)
  {
  }

  lemma {:induction false} CodesAreUnique(a: ErrorCode, b: ErrorCode)
    requires a.Code() == b.Code()
    ensures a == b
  {
    FromCodeOfCode(a);
    FromCodeOfCode(b);
  }

  /** Client faults answer 4xx; only storage and unexpected failures answer 500. */
  lemma StatusClasses(e: ErrorCode)
    ensures 400 <= e.HttpStatus() < 600
    ensures e.HttpStatus() == 500 <==> e == FileStorageError || e == UnexpectedError
    ensures e.HttpStatus() == 404 <==> e == EntityNotFound || e == UserNotFound || e == AvatarNotFound
    ensures e.HttpStatus() == 422 <==> e == ValidationFailed || e == AvatarUploadFailed
  {
  }

  /** No default message is blank, so a response that falls back to one always says something. */
  lemma {:induction false} DefaultMessageNotBlank(e: ErrorCode)
    ensures !IsBlank(e.DefaultMessage())
  {
    assert !IsWhitespace(e.DefaultMessage()[0]);
  }
}
