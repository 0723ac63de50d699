// `err/mod.rs`: the closed catalogue of API errors, each with an HTTP status,
// a human-readable message and a machine-readable code, and the JSON response
// built from them.

module Errors {
  import opened Wrappers
  import opened Json
  import opened Http

  const MESSAGE_ACCOUNT_NOT_FOUND: string := "Ledger account could not be found"
  const MESSAGE_DATABASE_UNREACHABLE: string := "The database is currently unreachable"
  const MESSAGE_INTERNAL_SERVER_ERROR: string := "Internal server error"
  // One literal in the source, written here in two pieces of the same text.
  const MESSAGE_INVALID_ACCOUNT_TYPE: string := "Invalid account type." + " Must be asset, liability, income or expense"
  const MESSAGE_VARIANT_NOT_FOUND: string := "Variant not found"

  const CODE_ACCOUNT_NOT_FOUND: string := "ACCOUNT_NOT_FOUND"
  const CODE_DATABASE_UNREACHABLE: string := "DATABASE_UNREACHABLE"
  const CODE_INTERNAL_SERVER_ERROR: string := "INTERNAL_SERVER_ERROR"
  const CODE_INVALID_ACCOUNT_TYPE: string := "INVALID_ACCOUNT_TYPE"
  const CODE_VARIANT_NOT_FOUND: string := "VARIANT_NOT_FOUND"

  datatype ApiError =
    | AccountNotFound
    | DatabaseUnreachable
    | InternalServerError
    | InvalidAccountType
    | VariantNotFound

  /** The status of each error: the two "not found" errors are 404, a bad
      account type is 400, an unreachable database is 503 (not 500). */
  function Status(e: ApiError): (s: int)
    ensures s == NOT_FOUND <==> e == AccountNotFound || e == VariantNotFound
    ensures s == BAD_REQUEST <==> e == InvalidAccountType
    ensures s == INTERNAL_SERVER_ERROR <==> e == InternalServerError
    ensures s == SERVICE_UNAVAILABLE <==> e == DatabaseUnreachable
  {
    match e
    case AccountNotFound => NOT_FOUND
    case DatabaseUnreachable => SERVICE_UNAVAILABLE
    case InternalServerError => INTERNAL_SERVER_ERROR
    case InvalidAccountType => BAD_REQUEST
    case VariantNotFound => NOT_FOUND
  }

  /** `message()`: a non-empty sentence for people, starting with a capital. */
  function Message(e: ApiError): (m: string)
    ensures m != [] && 'A' <= m[0] <= 'Z'
  {
    match e
    case AccountNotFound => MESSAGE_ACCOUNT_NOT_FOUND
    case DatabaseUnreachable => MESSAGE_DATABASE_UNREACHABLE
    case InternalServerError => MESSAGE_INTERNAL_SERVER_ERROR
    case InvalidAccountType => MESSAGE_INVALID_ACCOUNT_TYPE
    case VariantNotFound => MESSAGE_VARIANT_NOT_FOUND
  }

  /** `code()`: a non-empty identifier for programs, in upper snake case. */
  function Code(e: ApiError): (c: string)
    ensures c != [] && forall k :: 0 <= k < |c| ==> 'A' <= c[k] <= 'Z' || c[k] == '_'
  {
    match e
    case AccountNotFound => CODE_ACCOUNT_NOT_FOUND
    case DatabaseUnreachable => CODE_DATABASE_UNREACHABLE
    case InternalServerError => CODE_INTERNAL_SERVER_ERROR
    case InvalidAccountType => CODE_INVALID_ACCOUNT_TYPE
    case VariantNotFound => CODE_VARIANT_NOT_FOUND
  }

  /** A client's reading of an `errorCode`: the inverse of `Code`. */
  function FromCode(code: string): (r: Option<ApiError>)
    ensures r.Some? ==> Code(r.value) == code
  {
    if code == CODE_ACCOUNT_NOT_FOUND then Some(AccountNotFound)
    else if code == CODE_DATABASE_UNREACHABLE then Some(DatabaseUnreachable)
    else if code == CODE_INTERNAL_SERVER_ERROR then Some(InternalServerError)
    else if code == CODE_INVALID_ACCOUNT_TYPE then Some(InvalidAccountType)
    else if code == CODE_VARIANT_NOT_FOUND then Some(VariantNotFound)
    else None
  }

  /** Every code reads back as the error it came from. */
  lemma CodeRoundTrip(e: ApiError)
    ensures FromCode(Code(e)) == Some(e)
  {
    match e
    case AccountNotFound =>
    case DatabaseUnreachable =>
      assert CODE_DATABASE_UNREACHABLE[0] != CODE_ACCOUNT_NOT_FOUND[0];
    case InternalServerError =>
      assert CODE_INTERNAL_SERVER_ERROR[0] != CODE_ACCOUNT_NOT_FOUND[0];
      assert CODE_INTERNAL_SERVER_ERROR[0] != CODE_DATABASE_UNREACHABLE[0];
    case InvalidAccountType =>
      assert CODE_INVALID_ACCOUNT_TYPE[0] != CODE_ACCOUNT_NOT_FOUND[0];
      assert CODE_INVALID_ACCOUNT_TYPE[0] != CODE_DATABASE_UNREACHABLE[0];
      assert CODE_INVALID_ACCOUNT_TYPE[2] != CODE_INTERNAL_SERVER_ERROR[2];
    case VariantNotFound =>
      assert CODE_VARIANT_NOT_FOUND[0] != CODE_ACCOUNT_NOT_FOUND[0];
      assert CODE_VARIANT_NOT_FOUND[0] != CODE_DATABASE_UNREACHABLE[0];
      assert CODE_VARIANT_NOT_FOUND[0] != CODE_INTERNAL_SERVER_ERROR[0];
      assert CODE_VARIANT_NOT_FOUND[0] != CODE_INVALID_ACCOUNT_TYPE[0];
  }

  /** No two errors share a code. */
  lemma CodeInjective(e1: ApiError, e2: ApiError)
    ensures Code(e1) == Code(e2) ==> e1 == e2
  {
    CodeRoundTrip(e1);
    CodeRoundTrip(e2);
  }

  /** No two errors share a message. */
  lemma MessageInjective(e1: ApiError, e2: ApiError)
    ensures Message(e1) == Message(e2) ==> e1 == e2
  {
  }

  /** `json()`: an object with exactly the keys `error` and `errorCode`. */
  function ToJson(e: ApiError): (j: Value)
    ensures j.Object? && j.fields.Keys == {"error", "errorCode"}
    ensures j.fields["error"] == String(Message(e)) && j.fields["errorCode"] == String(Code(e))
  {
    Object(map["error" := String(Message(e)), "errorCode" := String(Code(e))])
  }

  /** `Into<HttpResponse>`: the variant's status with the variant's JSON. */
  function IntoResponse<M>(e: ApiError): (r: Response<M>)
    ensures r.status == Status(e) && r.body == ApiError(ToJson(e))
  {
    Response(Status(e), ApiError(ToJson(e)))
  }

  /** The body of an error response alone tells which error it was. */
  lemma BodyIdentifiesError<M>(e1: ApiError, e2: ApiError)
    ensures IntoResponse<M>(e1).body == IntoResponse<M>(e2).body ==> e1 == e2
  {
    if IntoResponse<M>(e1).body == IntoResponse<M>(e2).body {
      assert ToJson(e1).fields["errorCode"] == ToJson(e2).fields["errorCode"];
      CodeInjective(e1, e2);
    }
  }
}
