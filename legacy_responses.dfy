/** The older, three-error responder kept beside the current one. */
module LegacyResponses {
  import opened Wrappers
  import R = Responses

  datatype GenericError =
    | DieselError(inner: R.StoreError)
    | ProductDuplicateError
    | ProductReuseError

  datatype ErrorResponse = ErrorResponse(success: bool, message: string)

  const HttpOk: int := 200

  /** The legacy message: a missing row and the two product errors have fixed
      texts; any other store error shows the store's own description. */
  function ErrorMessage(e: GenericError): (m: string)
    ensures e.DieselError? && e.inner.DatabaseError? ==> m == e.inner.description
    ensures e.DieselError? && e.inner.NotFound? ==> m == R.NotFoundMessage
    ensures !e.DieselError? ==> |m| > 0 && m != R.NotFoundMessage
  {
    match e
    case DieselError(inner) => if inner.NotFound? then R.NotFoundMessage else inner.description
    case ProductDuplicateError => "产品重复初始化"
    case ProductReuseError => "产品已被使用"
  }

  /** The legacy answer: the JSON envelope with `success = false`, sent
      with the JSON responder's default status 200. */
  function RespondTo(e: GenericError): (r: R.Response<ErrorResponse>)
    ensures r.status == HttpOk
    ensures !r.body.success && r.body.message == ErrorMessage(e)
  {
    R.Response(HttpOk, ErrorResponse(false, ErrorMessage(e)))
  }

  function Build<T>(data: T): (r: Result<R.SuccessResponse<T>, GenericError>)
    ensures r.Ok? && r.value.success && r.value.data == data
  {
    Ok(R.SuccessResponse(true, data))
  }

  /** `From<DieselError>`: the store error is wrapped unchanged, into the
      variant that became the current taxonomy's store error. */
  function FromStoreError(e: R.StoreError): (g: GenericError)
    ensures g.DieselError? && g.inner == e
    ensures Current(g) == R.FromStoreError(e)
  {
    DieselError(e)
  }

  /** The error each legacy variant became in the current taxonomy. */
  function Current(e: GenericError): R.GenericError {
    match e
    case DieselError(inner) => R.DieselError(inner)
    case ProductDuplicateError => R.ProductDuplicateError
    case ProductReuseError => R.ProductReuseError
  }

  /** The two responders agree on every message except a store error other
      than not-found, where the legacy one leaks the store's description. */
  lemma AgreesWithCurrent(e: GenericError)
    requires !(e.DieselError? && e.inner.DatabaseError?)
    ensures ErrorMessage(e) == R.ErrorMessage(Current(e))
  {
  }
}
