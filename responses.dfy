/** The error taxonomy of the handlers and the JSON envelopes it is rendered into. */
module Responses {
  import opened Wrappers

  /** The store's own error: a lookup that found no row, or anything else the
      database reports (with its display text). */
  datatype StoreError = NotFound | DatabaseError(description: string)

  datatype GenericError =
    | DieselError(inner: StoreError)
    | ProductDuplicateError
    | ProductReuseError
    | TokenError
    | AuthError
    | ServerInternalError
    | UserNotExistError
    | PasswordIncorrectError
    | PasswordNotSetError
    | UserAlreadyExistsError
    | PermissionDeniedError
    | InvalidInputError
    | GetWechatAccessTokenError
    | GetWechatOpenIdError
    | GetWechatUserinfoError
    | ProfileNotExistError

  const NotFoundMessage: string := "请求的资源不存在"
  const DatabaseErrorMessage: string := "数据库错误"

  /** The fixed user-facing message of every error. */
  function ErrorMessage(e: GenericError): (m: string)
    ensures |m| > 0
    ensures e.DieselError? ==> (m == NotFoundMessage <==> e.inner.NotFound?)
    ensures e.DieselError? && !e.inner.NotFound? ==> m == DatabaseErrorMessage
  {
    match e
    case DieselError(inner) => if inner.NotFound? then NotFoundMessage else DatabaseErrorMessage
    case ProductDuplicateError => "产品重复初始化"
    case ProductReuseError => "产品已被使用"
    case TokenError => "Token解析错误"
    case AuthError => "用户认证错误"
    case ServerInternalError => "服务器内部错误"
    case UserNotExistError => "用户不存在"
    case PasswordIncorrectError => "密码错误"
    case PasswordNotSetError => "密码未设置"
    case UserAlreadyExistsError => "用户名已被占用"
    case PermissionDeniedError => "权限错误"
    case InvalidInputError => "输入不合法"
    case GetWechatAccessTokenError => "微信AccessToken获取失败"
    case GetWechatOpenIdError => "微信OpenId获取失败"
    case GetWechatUserinfoError => "微信Userinfo获取失败"
    case ProfileNotExistError => "档案未填写"
  }

  /** Two errors share a message only when both are store errors of the same
      kind (not-found, or some other database error). */
  lemma MessagesDistinguishErrors(e1: GenericError, e2: GenericError)
    requires ErrorMessage(e1) == ErrorMessage(e2)
    ensures e1 == e2 || (e1.DieselError? && e2.DieselError? && e1.inner.NotFound? == e2.inner.NotFound?)
  {
  }

  datatype ErrorResponse = ErrorResponse(success: bool, message: string, errorCode: Option<int>)

  datatype SuccessResponse<T> = SuccessResponse(success: bool, data: T)

  /** An HTTP response: its status code and its JSON body. */
  datatype Response<B> = Response(status: int, body: B)

  const InternalServerError: int := 500

  /** How every handler error is answered: status 500 whatever the error, and
      an envelope with `success = false`, the error's message and no code. */
  function RespondTo(e: GenericError): (r: Response<ErrorResponse>)
    ensures r.status == InternalServerError
    ensures !r.body.success && r.body.errorCode == None
    ensures r.body.message == ErrorMessage(e)
  {
    Response(InternalServerError, ErrorResponse(false, ErrorMessage(e), None))
  }

  /** `GenericResult<T>`: what every handler returns. */
  type GenericResult<T> = Result<SuccessResponse<T>, GenericError>

  /** `SuccessResponse::build`: never fails, marks success and keeps the data. */
  function Build<T>(data: T): (r: GenericResult<T>)
    ensures r.Ok? && r.value.success && r.value.data == data
  {
    Ok(SuccessResponse(true, data))
  }

  /** `From<DieselError>`: the store error is wrapped unchanged, which is what
      every `?` on a store call does. */
  function FromStoreError(e: StoreError): (g: GenericError)
    ensures g.DieselError? && g.inner == e
  {
    DieselError(e)
  }
}
