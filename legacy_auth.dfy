/** The older service's guard, `JWTAuthService`: it reads only the `JWT`
    cookie and accepts any token the library decodes. */
module LegacyAuth {
  import opened Wrappers
  import opened Time
  import opened LegacyRoutes

  const NoCredentialMessage: string := "未包含认证信息！"
  const InvalidCredentialMessage: string := "认证无效！"

  /** An empty data object; a refusal never carries one. */
  datatype VoidData = VoidData

  /** `JWTAuthService::from_request`. The request's headers are not an input:
      the guard never looks at them. */
  function JwtAuthService(cookies: map<string, string>, decode: string -> Option<LegacyClaims>)
    : (r: Result<(), StdJsonResponse<VoidData>>)
    ensures JwtCookieName !in cookies ==> r == Err(Refuse(NoCredentialMessage))
    ensures JwtCookieName in cookies ==>
      (r.Ok? <==> decode(cookies[JwtCookieName]).Some?)
    ensures JwtCookieName in cookies && r.Err? ==> r == Err(Refuse(InvalidCredentialMessage))
    ensures r.Err? ==> !r.error.success && r.error.status == HttpOk
  {
    if JwtCookieName !in cookies then Err(Refuse(NoCredentialMessage))
    else if decode(cookies[JwtCookieName]).Some? then Ok(())
    else Err(Refuse(InvalidCredentialMessage))
  }

  /** Cookies other than `JWT` make no difference to the guard. */
  lemma OnlyJwtCookieMatters(c1: map<string, string>, c2: map<string, string>, decode: string -> Option<LegacyClaims>)
    requires (JwtCookieName in c1) == (JwtCookieName in c2)
    requires JwtCookieName in c1 ==> c1[JwtCookieName] == c2[JwtCookieName]
    ensures JwtAuthService(c1, decode) == JwtAuthService(c2, decode)
  {
  }

  /** The cookie a successful login sets passes the guard, given only that
      the library decodes what it signed into some claims. */
  lemma LoginCookiePasses(users: seq<UserDoc>, username: string, pwhashed: string,
                          hmac: string -> string, now: Instant,
                          encode: LegacyClaims -> Option<string>, decode: string -> Option<LegacyClaims>)
    requires Login(users, username, pwhashed, hmac, now, encode).cookie.Some?
    requires decode(encode(LoginClaims(username, now)).GetOr("")).Some?
    ensures var c := Login(users, username, pwhashed, hmac, now, encode).cookie.value;
      JwtAuthService(map[c.name := c.value], decode) == Ok(())
  {
  }

  datatype VerifyData = VerifyData(username: string)

  /** What a handler behind the guard produces: the guard's refusal or the
      handler's answer, or a panic inside the handler. */
  datatype Handled<+T> = Answered(result: Result<StdJsonResponse<T>, StdJsonResponse<VoidData>>) | HandlerPanicked

  /** How the cookie library displays a request cookie: `name=value`. */
  function CookieText(name: string, value: string): (t: string)
    ensures |t| == |name| + 1 + |value|
    ensures t[..|name|] == name && t[|name|] == '='
  {
    name + "=" + value
  }

  /** `verify_token` as written: behind the guard it decodes the cookie's
      display text rather than its value and unwraps the result, so it
      answers only when the library also decodes `JWT=<token>`, and panics
      otherwise. */
  function VerifyTokenAsWritten(cookies: map<string, string>, decode: string -> Option<LegacyClaims>)
    : (r: Handled<VerifyData>)
    ensures JwtAuthService(cookies, decode).Err? ==> r == Answered(Err(JwtAuthService(cookies, decode).error))
    ensures JwtAuthService(cookies, decode).Ok? ==>
      (r == HandlerPanicked <==> decode(CookieText(JwtCookieName, cookies[JwtCookieName])).None?)
  {
    match JwtAuthService(cookies, decode)
    case Err(refusal) => Answered(Err(refusal))
    case Ok(_) =>
      match decode(CookieText(JwtCookieName, cookies[JwtCookieName]))
      case None => HandlerPanicked
      case Some(claims) => Answered(Ok(GenStdJsonResponse(Some(VerifyData(claims.usr)), None)))
  }

  /** `verify_token` as evidently intended: behind the guard the `JWT`
      cookie's value is decoded again (it decoded once already, so this
      cannot fail) and its username is answered. */
  function VerifyToken(cookies: map<string, string>, decode: string -> Option<LegacyClaims>)
    : (r: Result<StdJsonResponse<VerifyData>, StdJsonResponse<VoidData>>)
    ensures r.Err? <==> JwtAuthService(cookies, decode).Err?
    ensures r.Err? ==> r.error == JwtAuthService(cookies, decode).error
    ensures r.Ok? ==>
      && JwtCookieName in cookies && decode(cookies[JwtCookieName]).Some?
      && r.value == GenStdJsonResponse(Some(VerifyData(decode(cookies[JwtCookieName]).value.usr)), None)
  {
    match JwtAuthService(cookies, decode)
    case Err(refusal) => Err(refusal)
    case Ok(_) => Ok(GenStdJsonResponse(Some(VerifyData(decode(cookies[JwtCookieName]).value.usr)), None))
  }

  /** A library that decodes exactly the token it signed lets that token
      through the guard, after which the handler as written panics while the
      corrected one answers the token's username. */
  lemma VerifyTokenPanicsOnValidToken(token: string, claims: LegacyClaims)
    ensures var decode := (s: string) => if s == token then Some(claims) else None;
      var cookies := map[JwtCookieName := token];
      && JwtAuthService(cookies, decode) == Ok(())
      && VerifyTokenAsWritten(cookies, decode) == HandlerPanicked
      && VerifyToken(cookies, decode) == Ok(GenStdJsonResponse(Some(VerifyData(claims.usr)), None))
  {
    var text := CookieText(JwtCookieName, token);
    assert |text| != |token|;
  }

  /** The token a login signed verifies to the username that logged in, given
      that the library decodes what it signed. */
  lemma LoginThenVerify(users: seq<UserDoc>, username: string, pwhashed: string,
                        hmac: string -> string, now: Instant,
                        encode: LegacyClaims -> Option<string>, decode: string -> Option<LegacyClaims>)
    requires Login(users, username, pwhashed, hmac, now, encode).cookie.Some?
    requires decode(encode(LoginClaims(username, now)).GetOr("")) == Some(LoginClaims(username, now))
    ensures var c := Login(users, username, pwhashed, hmac, now, encode).cookie.value;
      VerifyToken(map[c.name := c.value], decode) == Ok(GenStdJsonResponse(Some(VerifyData(username)), None))
  {
  }
}
