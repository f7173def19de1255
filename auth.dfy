/** The role-gated request guards and the token they read.

    A guard looks at the `Authorization` header first; only when there is none
    does it read the `token` cookie. The JWT library's signature and expiry
    check is the `decode` parameter, a function the model knows nothing about;
    what it yields is the claims object as signed. */
module Auth {
  import opened Wrappers
  import opened Text
  import opened Time
  import opened Responses
  import opened Models

  const AuthorizationHeader: string := "Authorization"
  const TokenCookieName: string := "token"
  const BearerPrefix: string := "Bearer"
  /** The byte offset at which the guards cut the header before decoding. */
  const TokenOffset: nat := 7

  /** Whether `&h[7..]` succeeds on a header that starts with "Bearer". Rust
      cuts a string by UTF-8 bytes: the six letters of the prefix are one
      byte each, so byte 7 is a character boundary exactly when the header
      has a seventh character and that character is ASCII (one byte). Then
      the bytes from 7 on are the characters from 7 on. */
  predicate CutsAtBoundary(h: string) {
    |h| >= TokenOffset && h[TokenOffset - 1] as int < 128
  }

  /** The parts of a request the guards read: its headers and its cookies. */
  datatype Request = Request(headers: map<string, string>, cookies: map<string, string>)

  datatype Status = Unauthorized | Forbidden

  function StatusCode(s: Status): int {
    match s
    case Unauthorized => 401
    case Forbidden => 403
  }

  /** A guard's outcome. `Panicked` is a request whose handling panics (Rust
      aborts the request task; the framework answers with a server error). */
  datatype Outcome<+T> = Success(value: T) | Failure(status: Status, error: GenericError) | Panicked

  // ---- token claims and the NumericDate encoding of section 2 of RFC 7519 ----

  /** The claims object as it travels inside the token: `exp` is an integer. */
  datatype ClaimsPayload = ClaimsPayload(exp: int, userId: int, userRole: RoleEnum)

  /** `TokenClaims` after deserialization. */
  datatype TokenClaims = TokenClaims(exp: Instant, userId: int, userRole: RoleEnum)

  /** `jwt_numeric_date::serialize`: the whole seconds since the epoch. The
      source's doc comment speaks of milliseconds; the code emits seconds. */
  function SerializeNumericDate(d: Instant): int {
    d.secs
  }

  /** `jwt_numeric_date::deserialize`: an i64 of seconds, with no
      nanoseconds; an integer beyond i64 or outside chrono's range is an error. */
  function DeserializeNumericDate(n: int): (r: Option<Instant>)
    ensures r.Some? <==> InI64(n) && InChronoRange(n)
    ensures r.Some? ==> r.value.secs == n && r.value.nanos == 0
  {
    if InI64(n) && InChronoRange(n) then Some(Instant(n, 0)) else None
  }

  /** Encoding then decoding a date gives it back truncated to whole seconds. */
  lemma NumericDateRoundTrip(d: Instant)
    requires InChronoRange(d.secs)
    ensures DeserializeNumericDate(SerializeNumericDate(d)) == Some(Instant(d.secs, 0))
  {
  }

  function ToPayload(c: TokenClaims): ClaimsPayload {
    ClaimsPayload(SerializeNumericDate(c.exp), c.userId, c.userRole)
  }

  /** `decode::<TokenClaims>`: the library's verdict on the token, then serde's
      reading of the claims (`user_id` must fit an i32, `exp` a date). */
  function DecodeClaims(decode: string -> Option<ClaimsPayload>, token: string): (r: Option<TokenClaims>)
    ensures r.Some? <==>
      decode(token).Some? && InI32(decode(token).value.userId)
      && DeserializeNumericDate(decode(token).value.exp).Some?
    ensures r.Some? ==>
      r.value.userId == decode(token).value.userId
      && r.value.userRole == decode(token).value.userRole
      && r.value.exp == Instant(decode(token).value.exp, 0)
  {
    match decode(token)
    case None => None
    case Some(p) =>
      if !InI32(p.userId) then None
      else match DeserializeNumericDate(p.exp)
        case None => None
        case Some(exp) => Some(TokenClaims(exp, p.userId, p.userRole))
  }

  // ---- credential extraction, shared by every guard ----

  /** What a request presents: a Bearer header's token, a header that is not
      Bearer, a Bearer header that cannot be cut at byte 7 (it is "Bearer"
      alone, or its seventh character is not ASCII), the token cookie's value,
      or nothing. */
  datatype Credential =
    | BearerToken(token: string)
    | NotBearer
    | BearerCutPanics
    | CookieToken(token: string)
    | NoCredential

  function PresentedCredential(req: Request): (c: Credential)
    ensures AuthorizationHeader in req.headers ==>
      var h := req.headers[AuthorizationHeader];
      && (c.NotBearer? <==> !StartsWith(h, BearerPrefix))
      && (c.BearerCutPanics? <==> StartsWith(h, BearerPrefix) && !CutsAtBoundary(h))
      && (c.BearerToken? <==> StartsWith(h, BearerPrefix) && CutsAtBoundary(h))
      && (c.BearerToken? ==> |h| >= TokenOffset && c.token == h[TokenOffset..])
    ensures AuthorizationHeader !in req.headers ==>
      if TokenCookieName in req.cookies then c == CookieToken(req.cookies[TokenCookieName])
      else c == NoCredential
  {
    if AuthorizationHeader in req.headers then
      var h := req.headers[AuthorizationHeader];
      if !StartsWith(h, BearerPrefix) then NotBearer
      else if !CutsAtBoundary(h) then BearerCutPanics
      else BearerToken(h[TokenOffset..])
    else if TokenCookieName in req.cookies then CookieToken(req.cookies[TokenCookieName])
    else NoCredential
  }

  /** The common first half of every guard: find the credential and decode it. */
  function Authenticate(req: Request, decode: string -> Option<ClaimsPayload>): (r: Outcome<TokenClaims>)
    ensures PresentedCredential(req).NotBearer? ==> r == Failure(Unauthorized, TokenError)
    ensures PresentedCredential(req).BearerCutPanics? ==> r == Panicked
    ensures PresentedCredential(req).NoCredential? ==> r == Failure(Unauthorized, AuthError)
    ensures PresentedCredential(req).BearerToken? || PresentedCredential(req).CookieToken? ==>
      var claims := DecodeClaims(decode, PresentedCredential(req).token);
      r == if claims.Some? then Success(claims.value) else Failure(Unauthorized, AuthError)
  {
    match PresentedCredential(req)
    case NotBearer => Failure(Unauthorized, TokenError)
    case BearerCutPanics => Panicked
    case NoCredential => Failure(Unauthorized, AuthError)
    case BearerToken(t) => Check(DecodeClaims(decode, t))
    case CookieToken(t) => Check(DecodeClaims(decode, t))
  }

  function Check(claims: Option<TokenClaims>): Outcome<TokenClaims> {
    if claims.Some? then Success(claims.value) else Failure(Unauthorized, AuthError)
  }

  /** A guard's failure carried over unchanged from `Authenticate`. */
  function Rejection<T>(a: Outcome<TokenClaims>): (r: Outcome<T>)
    requires !a.Success?
    ensures r.Panicked? == a.Panicked?
    ensures a.Failure? ==> r.Failure? && r.status == a.status && r.error == a.error
  {
    if a.Panicked? then Panicked else Failure(a.status, a.error)
  }

  // ---- the four guards ----

  datatype UserDigest = UserDigest(userId: int, userRole: RoleEnum)

  /** `UserDigest::from_request`: any valid token, whatever its role. */
  function UserDigestFromRequest(req: Request, decode: string -> Option<ClaimsPayload>): (r: Outcome<UserDigest>)
    ensures r.Success? <==> Authenticate(req, decode).Success?
    ensures r.Success? ==>
      r.value.userId == Authenticate(req, decode).value.userId
      && r.value.userRole == Authenticate(req, decode).value.userRole
    ensures !r.Success? ==> r == Rejection(Authenticate(req, decode))
  {
    var a := Authenticate(req, decode);
    if a.Success? then Success(UserDigest(a.value.userId, a.value.userRole)) else Rejection(a)
  }

  datatype StaffAuth = StaffAuth(userId: int, userRole: RoleEnum)

  /** `StaffAuth::from_request`: a valid token whose role is not `User`. */
  function StaffAuthFromRequest(req: Request, decode: string -> Option<ClaimsPayload>): (r: Outcome<StaffAuth>)
    ensures r.Success? <==> Authenticate(req, decode).Success? && Authenticate(req, decode).value.userRole != User
    ensures r.Success? ==>
      r.value.userRole != User
      && r.value.userId == Authenticate(req, decode).value.userId
      && r.value.userRole == Authenticate(req, decode).value.userRole
    ensures Authenticate(req, decode).Success? && Authenticate(req, decode).value.userRole == User ==>
      r == Failure(Forbidden, PermissionDeniedError)
    ensures !Authenticate(req, decode).Success? ==> r == Rejection(Authenticate(req, decode))
  {
    var a := Authenticate(req, decode);
    if !a.Success? then Rejection(a)
    else if a.value.userRole == User then Failure(Forbidden, PermissionDeniedError)
    else Success(StaffAuth(a.value.userId, a.value.userRole))
  }

  datatype AdminAuth = AdminAuth

  /** `AdminAuth::from_request`: a valid token whose role is `Admin`. */
  function AdminAuthFromRequest(req: Request, decode: string -> Option<ClaimsPayload>): (r: Outcome<AdminAuth>)
    ensures r.Success? <==> Authenticate(req, decode).Success? && Authenticate(req, decode).value.userRole == Admin
    ensures Authenticate(req, decode).Success? && Authenticate(req, decode).value.userRole != Admin ==>
      r == Failure(Forbidden, PermissionDeniedError)
    ensures !Authenticate(req, decode).Success? ==> r == Rejection(Authenticate(req, decode))
  {
    var a := Authenticate(req, decode);
    if !a.Success? then Rejection(a)
    else if a.value.userRole == Admin then Success(AdminAuth)
    else Failure(Forbidden, PermissionDeniedError)
  }

  datatype UnitStaffAuth = UnitStaffAuth

  /** The older `StaffAuth` of `src/user`: the same table, carrying nothing. */
  function LegacyStaffAuthFromRequest(req: Request, decode: string -> Option<ClaimsPayload>): (r: Outcome<UnitStaffAuth>)
    ensures r.Success? <==> Authenticate(req, decode).Success? && Authenticate(req, decode).value.userRole != User
    ensures Authenticate(req, decode).Success? && Authenticate(req, decode).value.userRole == User ==>
      r == Failure(Forbidden, PermissionDeniedError)
    ensures !Authenticate(req, decode).Success? ==> r == Rejection(Authenticate(req, decode))
  {
    var a := Authenticate(req, decode);
    if !a.Success? then Rejection(a)
    else if a.value.userRole == User then Failure(Forbidden, PermissionDeniedError)
    else Success(UnitStaffAuth)
  }

  // ---- properties of the guards, stated on requests ----

  /** With an `Authorization` header present, the cookies are never read: two
      requests with the same header get the same answer from every guard. */
  lemma HeaderTakesPrecedence(r1: Request, r2: Request, decode: string -> Option<ClaimsPayload>)
    requires AuthorizationHeader in r1.headers && AuthorizationHeader in r2.headers
    requires r1.headers[AuthorizationHeader] == r2.headers[AuthorizationHeader]
    ensures UserDigestFromRequest(r1, decode) == UserDigestFromRequest(r2, decode)
    ensures StaffAuthFromRequest(r1, decode) == StaffAuthFromRequest(r2, decode)
    ensures AdminAuthFromRequest(r1, decode) == AdminAuthFromRequest(r2, decode)
    ensures LegacyStaffAuthFromRequest(r1, decode) == LegacyStaffAuthFromRequest(r2, decode)
  {
    assert PresentedCredential(r1) == PresentedCredential(r2);
  }

  /** A header that does not start with "Bearer" is refused with a token error
      by every guard, and what the decoder would say does not matter. */
  lemma NonBearerHeaderRejected(req: Request, d1: string -> Option<ClaimsPayload>, d2: string -> Option<ClaimsPayload>)
    requires AuthorizationHeader in req.headers && !StartsWith(req.headers[AuthorizationHeader], BearerPrefix)
    ensures UserDigestFromRequest(req, d1) == UserDigestFromRequest(req, d2) == Failure(Unauthorized, TokenError)
    ensures StaffAuthFromRequest(req, d1) == StaffAuthFromRequest(req, d2) == Failure(Unauthorized, TokenError)
    ensures AdminAuthFromRequest(req, d1) == AdminAuthFromRequest(req, d2) == Failure(Unauthorized, TokenError)
    ensures LegacyStaffAuthFromRequest(req, d1) == Failure(Unauthorized, TokenError)
  {
  }

  /** A Bearer header is decoded without its first seven characters, and a
      successful decode yields exactly the claims' user id and role. */
  lemma BearerHeaderDecoded(req: Request, decode: string -> Option<ClaimsPayload>)
    requires AuthorizationHeader in req.headers
    requires StartsWith(req.headers[AuthorizationHeader], BearerPrefix)
    requires CutsAtBoundary(req.headers[AuthorizationHeader])
    ensures var claims := DecodeClaims(decode, req.headers[AuthorizationHeader][TokenOffset..]);
      UserDigestFromRequest(req, decode) ==
        if claims.Some? then Success(UserDigest(claims.value.userId, claims.value.userRole))
        else Failure(Unauthorized, AuthError)
  {
  }

  /** A header that is exactly "Bearer" makes the guards' slice `[7..]` panic. */
  lemma BareBearerPanics(req: Request, decode: string -> Option<ClaimsPayload>)
    requires AuthorizationHeader in req.headers && req.headers[AuthorizationHeader] == BearerPrefix
    ensures UserDigestFromRequest(req, decode) == Panicked
    ensures StaffAuthFromRequest(req, decode) == Panicked
    ensures AdminAuthFromRequest(req, decode) == Panicked
    ensures LegacyStaffAuthFromRequest(req, decode) == Panicked
  {
    assert StartsWith(BearerPrefix, BearerPrefix);
  }

  /** A Bearer header whose seventh character is not ASCII makes every
      guard panic: byte 7 falls inside that character. */
  lemma NonAsciiCutPanics(req: Request, c: char, rest: string, decode: string -> Option<ClaimsPayload>)
    requires AuthorizationHeader in req.headers && req.headers[AuthorizationHeader] == BearerPrefix + [c] + rest
    requires c as int >= 128
    ensures UserDigestFromRequest(req, decode) == Panicked
    ensures StaffAuthFromRequest(req, decode) == Panicked
    ensures AdminAuthFromRequest(req, decode) == Panicked
    ensures LegacyStaffAuthFromRequest(req, decode) == Panicked
  {
    var h := BearerPrefix + [c] + rest;
    assert h[..|BearerPrefix|] == BearerPrefix;
    assert h[TokenOffset - 1] == c;
  }

  /** On the cookie path, the `token` cookie's value is what gets decoded. */
  lemma CookieDecoded(req: Request, decode: string -> Option<ClaimsPayload>)
    requires AuthorizationHeader !in req.headers && TokenCookieName in req.cookies
    ensures var claims := DecodeClaims(decode, req.cookies[TokenCookieName]);
      UserDigestFromRequest(req, decode) ==
        if claims.Some? then Success(UserDigest(claims.value.userId, claims.value.userRole))
        else Failure(Unauthorized, AuthError)
  {
  }

  /** A presented token that does not decode is an authentication error for
      every guard, on the header path and on the cookie path. */
  lemma DecodeFailureIsAuthError(req: Request, decode: string -> Option<ClaimsPayload>)
    requires PresentedCredential(req).BearerToken? || PresentedCredential(req).CookieToken?
    requires DecodeClaims(decode, PresentedCredential(req).token).None?
    ensures UserDigestFromRequest(req, decode) == Failure(Unauthorized, AuthError)
    ensures StaffAuthFromRequest(req, decode) == Failure(Unauthorized, AuthError)
    ensures AdminAuthFromRequest(req, decode) == Failure(Unauthorized, AuthError)
    ensures LegacyStaffAuthFromRequest(req, decode) == Failure(Unauthorized, AuthError)
  {
  }

  /** No header and no `token` cookie: an authentication error everywhere. */
  lemma MissingCredentialIsAuthError(req: Request, decode: string -> Option<ClaimsPayload>)
    requires AuthorizationHeader !in req.headers && TokenCookieName !in req.cookies
    ensures UserDigestFromRequest(req, decode) == Failure(Unauthorized, AuthError)
    ensures StaffAuthFromRequest(req, decode) == Failure(Unauthorized, AuthError)
    ensures AdminAuthFromRequest(req, decode) == Failure(Unauthorized, AuthError)
    ensures LegacyStaffAuthFromRequest(req, decode) == Failure(Unauthorized, AuthError)
  {
  }

  /** A decoded token admits its holder at the level its role allows:
      `UserDigest` for every role, the staff guards unless the role is `User`,
      the admin guard only for `Admin`. */
  lemma RoleGates(req: Request, decode: string -> Option<ClaimsPayload>)
    requires Authenticate(req, decode).Success?
    ensures var c := Authenticate(req, decode).value;
      && UserDigestFromRequest(req, decode) == Success(UserDigest(c.userId, c.userRole))
      && StaffAuthFromRequest(req, decode) ==
           (if c.userRole == User then Failure(Forbidden, PermissionDeniedError)
            else Success(StaffAuth(c.userId, c.userRole)))
      && AdminAuthFromRequest(req, decode) ==
           (if c.userRole == Admin then Success(AdminAuth) else Failure(Forbidden, PermissionDeniedError))
      && LegacyStaffAuthFromRequest(req, decode) ==
           (if c.userRole == User then Failure(Forbidden, PermissionDeniedError) else Success(UnitStaffAuth))
  {
  }

  /** Privilege is monotone: whatever the admin guard admits, both staff
      guards and the user guard admit too; whatever a staff guard admits, the
      user guard admits. */
  lemma PrivilegeMonotone(req: Request, decode: string -> Option<ClaimsPayload>)
    ensures AdminAuthFromRequest(req, decode).Success? ==> StaffAuthFromRequest(req, decode).Success?
    ensures StaffAuthFromRequest(req, decode).Success? <==> LegacyStaffAuthFromRequest(req, decode).Success?
    ensures StaffAuthFromRequest(req, decode).Success? ==> UserDigestFromRequest(req, decode).Success?
  {
  }

  // ---- issuing tokens ----

  /** A cookie the handlers set: name, value and expiry. */
  datatype Cookie = Cookie(name: string, value: string, expires: Option<Instant>)

  /** The claims a login issues: valid for one week from now. */
  function IssuedClaims(userId: int, role: RoleEnum, now: Instant): TokenClaims {
    TokenClaims(AddSeconds(now, WeekSeconds), userId, role)
  }

  /** `gen_token_cookie`: sign the week-long claims into a cookie named
      `token` that expires with them; a signing failure is a token error. */
  function GenTokenCookie(userId: int, role: RoleEnum, now: Instant, encode: ClaimsPayload -> Option<string>)
    : (r: Result<Cookie, GenericError>)
    ensures var signed := encode(ToPayload(IssuedClaims(userId, role, now)));
      && (r.Err? <==> signed.None?)
      && (r.Err? ==> r.error == TokenError)
      && (r.Ok? ==> r.value == Cookie(TokenCookieName, signed.value, Some(AddSeconds(now, WeekSeconds))))
  {
    match encode(ToPayload(IssuedClaims(userId, role, now)))
    case None => Err(TokenError)
    case Some(token) => Ok(Cookie(TokenCookieName, token, Some(AddSeconds(now, WeekSeconds))))
  }

  /** If the library's decoder gives back what its encoder signed, the cookie
      a login issues authenticates its holder with the same id and role. The
      hypothesis is about the library, and it is stated, not assumed. */
  lemma IssuedCookieAuthenticates(
    userId: int, role: RoleEnum, now: Instant,
    encode: ClaimsPayload -> Option<string>, decode: string -> Option<ClaimsPayload>)
    requires InI32(userId) && InI64(now.secs + WeekSeconds) && InChronoRange(now.secs + WeekSeconds)
    requires GenTokenCookie(userId, role, now, encode).Ok?
    requires var token := GenTokenCookie(userId, role, now, encode).value.value;
      decode(token) == Some(ToPayload(IssuedClaims(userId, role, now)))
    ensures var cookie := GenTokenCookie(userId, role, now, encode).value;
      var req := Request(map[], map[cookie.name := cookie.value]);
      && UserDigestFromRequest(req, decode) == Success(UserDigest(userId, role))
      && Authenticate(req, decode) == Success(TokenClaims(Instant(now.secs + WeekSeconds, 0), userId, role))
  {
    var cookie := GenTokenCookie(userId, role, now, encode).value;
    var req := Request(map[], map[cookie.name := cookie.value]);
    assert PresentedCredential(req) == CookieToken(cookie.value);
    NumericDateRoundTrip(AddSeconds(now, WeekSeconds));
  }
}
