/** The error taxonomy every error response carries: a name and a number. */
module ErrorCodes {

  datatype ErrorCode =
    | MalformedRequest
    | FacebookError
    | FacebookTokenError
    | AccountExists
    | InvalidItem
    | InvalidUser
    | UserPermissionError
    | GenericError
    | UploadFailed
    | IndexingError
    | SearchError
  {
    /** The name sent as the error's `status`. */
    function Name(): string {
      match this
      case MalformedRequest => "MalformedRequest"
      case FacebookError => "FacebookError"
      case FacebookTokenError => "FacebookTokenError"
      case AccountExists => "AccountExists"
      case InvalidItem => "InvalidItem"
      case InvalidUser => "InvalidUser"
      case UserPermissionError => "UserPermissionError"
      case GenericError => "GenericError"
      case UploadFailed => "UploadFailed"
      case IndexingError => "IndexingError"
      case SearchError => "SearchError"
    }

    /** The number sent as the error's `error_code`; the hundreds digit is the
        family (1 request, 2 third-party login, 3 accounts and items, 9 server). */
    function Code(): nat {
      match this
      case MalformedRequest => 100
      case FacebookError => 200
      case FacebookTokenError => 201
      case AccountExists => 300
      case InvalidItem => 301
      case InvalidUser => 302
      case UserPermissionError => 303
      case GenericError => 900
      case UploadFailed => 901
      case IndexingError => 902
      case SearchError => 903
    }
  }

  /** A client can tell every error apart by its number alone. */
  lemma CodeIdentifiesError(a: ErrorCode, b: ErrorCode)
    ensures a.Code() == b.Code() <==> a == b
  {
    match a
    case MalformedRequest =>
    case FacebookError =>
    case FacebookTokenError =>
    case AccountExists =>
    case InvalidItem =>
    case InvalidUser =>
    case UserPermissionError =>
    case GenericError =>
    case UploadFailed =>
    case IndexingError =>
    case SearchError =>
  }
}
