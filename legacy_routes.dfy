/** The older document-store service: profiles keyed by a printed uuid, and a
    user collection for staff logins. Each collection is a sequence of
    documents in insertion order; a lookup or an update by key acts on the
    first document with that key, as the store's `find_one` and
    `update_one` do. */
module LegacyRoutes {
  import opened Wrappers
  import opened Text
  import opened Time

  // ---- the response envelope ----

  const HttpOk: int := 200

  datatype StdJsonResponse<+T> = StdJsonResponse(status: int, success: bool, data: Option<T>, errmsg: Option<string>)

  /** `gen_std_json_response`: always HTTP 200; `success` says whether there is data. */
  function GenStdJsonResponse<T>(data: Option<T>, errmsg: Option<string>): (r: StdJsonResponse<T>)
    ensures r.status == HttpOk
    ensures r.success <==> data.Some?
    ensures r.data == data && r.errmsg == errmsg
  {
    StdJsonResponse(HttpOk, data.Some?, data, errmsg)
  }

  /** A refusal: no data, so `success` is false, and a message. */
  function Refuse<T>(message: string): (r: StdJsonResponse<T>)
    ensures r.status == HttpOk && !r.success && r.data.None? && r.errmsg == Some(message)
  {
    GenStdJsonResponse(None, Some(message))
  }

  const ProfileNotFilledMessage: string := "档案未填写！"
  const ProfileMissingMessage: string := "档案不存在！"
  const WechatBusyMessage: string := "微信服务器繁忙！"
  const InvalidCodeMessage: string := "用户代码无效！"
  const RateLimitedMessage: string := "达到频率上限！"
  const WechatErrorMessage: string := "微信服务器错误！"
  const UserMissingMessage: string := "用户名不存在！"
  const WrongPasswordMessage: string := "密码不正确！"
  const TokenErrorMessage: string := "生成JWT错误！"
  const UserExistsMessage: string := "用户已存在！"

  /** A handler's reply, or a panic in the handler (an `unwrap` on nothing). */
  datatype Reply<+T> = Reply(response: StdJsonResponse<T>) | Panicked

  // ---- documents ----

  /** The profile form a client submits, every field as sent. */
  datatype ProfileForm = ProfileForm(
    uuid: string, init: bool, name: string, delete: bool, gender: string,
    time: string, phone: string, address: string, age: int, email: string,
    hospital: string, openId: string)

  /** A profile document: its key and `init` flag, the `delete` flag when the
      document has one, and the submitted form once there is one. */
  datatype ProfileDoc = ProfileDoc(uuid: string, init: bool, delete: Option<bool>, form: Option<ProfileForm>)

  /** The document a submission's `$set` leaves: every field of the form. */
  function FromForm(f: ProfileForm): (d: ProfileDoc)
    ensures d.uuid == f.uuid && d.init == f.init && d.form == Some(f)
  {
    ProfileDoc(f.uuid, f.init, Some(f.delete), Some(f))
  }

  /** A document as the handlers leave it: a document with a form carries
      the form's own fields, and only a document with a form is marked
      `init`, so reading the profile of an initialised document succeeds. */
  predicate WellFormed(d: ProfileDoc) {
    (d.form.Some? ==> d == FromForm(d.form.value)) && (d.init ==> d.form.Some?)
  }

  datatype UserDoc = UserDoc(username: string, pwhashed: string)

  /** The index `find_one` picks: the first element satisfying `p`. */
  function FirstMatch<T>(s: seq<T>, p: T -> bool): (r: Option<nat>)
    ensures r.Some? ==> r.value < |s| && p(s[r.value]) && forall j :: 0 <= j < r.value ==> !p(s[j])
    ensures r.None? ==> forall j :: 0 <= j < |s| ==> !p(s[j])
    decreases |s|
  {
    if s == [] then None
    else if p(s[0]) then Some(0)
    else match FirstMatch(s[1..], p)
      case None => None
      case Some(i) => Some(i + 1)
  }

  /** Appending an element never changes which element is found first,
      unless there was none and the new one matches. */
  lemma {:induction false} FirstMatchAppend<T>(s: seq<T>, x: T, p: T -> bool)
    ensures FirstMatch(s + [x], p) ==
      if FirstMatch(s, p).Some? then FirstMatch(s, p)
      else if p(x) then Some(|s|) else None
    decreases |s|
  {
    if s == [] {
      assert s + [x] == [x] && [x][1..] == [];
    } else {
      assert (s + [x])[0] == s[0];
      assert (s + [x])[1..] == s[1..] + [x];
      FirstMatchAppend(s[1..], x, p);
    }
  }

  function WithUuid(uuid: string): ProfileDoc -> bool {
    (d: ProfileDoc) => d.uuid == uuid
  }

  function WithUsername(username: string): UserDoc -> bool {
    (u: UserDoc) => u.username == username
  }

  /** The two collections of the service. */
  class AppState {
    var profile: seq<ProfileDoc>
    var user: seq<UserDoc>

    predicate Valid()
      reads this
    {
      forall i :: 0 <= i < |profile| ==> WellFormed(profile[i])
    }

    constructor ()
      ensures Valid() && profile == [] && user == []
    {
      profile := [];
      user := [];
    }
  }

  // ---- new_product and the uuid it prints ----

  /** chrono's `%Y`: four digits, zero-padded, for the years 0 to 9999; a
      sign and the digits beyond that range. */
  function YearField(year: int): (r: string)
    ensures 0 <= year <= 9999 ==> |r| == 4 && AllDigits(r) && DecimalValue(r) == year
  {
    ZeroPaddedSpec(if year >= 0 then year else -year, 4);
    assert Pow10(4) == 10000 by { assert Pow10(2) == 100 by { assert Pow10(1) == 10; } }
    if 0 <= year <= 9999 then ZeroPadded(year, 4)
    else if year > 9999 then "+" + Digits(year)
    else "-" + ZeroPadded(-year, 4)
  }

  function TwoDigits(n: nat): (r: string)
    ensures AllDigits(r)
    ensures n < 100 ==> |r| == 2 && DecimalValue(r) == n
  {
    ZeroPaddedSpec(n, 2);
    assert Pow10(2) == 100 by { assert Pow10(1) == 10; }
    ZeroPadded(n, 2)
  }

  /** `%Y%m%d%H%M` of the local time. */
  function Stamp(now: DateTime): (r: string)
    ensures ValidDateTime(now) && 0 <= now.year <= 9999 ==>
      && |r| == 12 && AllDigits(r)
      && DecimalValue(r[..4]) == now.year
      && DecimalValue(r[4..6]) == now.month
      && DecimalValue(r[6..8]) == now.day
      && DecimalValue(r[8..10]) == now.hour
      && DecimalValue(r[10..]) == now.minute
  {
    var y := YearField(now.year);
    var r := y + TwoDigits(now.month) + TwoDigits(now.day) + TwoDigits(now.hour) + TwoDigits(now.minute);
    if ValidDateTime(now) && 0 <= now.year <= 9999 then
      assert r[..4] == y;
      assert r[4..6] == TwoDigits(now.month);
      assert r[6..8] == TwoDigits(now.day);
      assert r[8..10] == TwoDigits(now.hour);
      assert r[10..] == TwoDigits(now.minute);
      r
    else r
  }

  /** A new product's uuid: the 12-digit stamp then the four random digits. */
  lemma NewUuidShape(now: DateTime, suffix: string)
    requires ValidDateTime(now) && 0 <= now.year <= 9999
    requires |suffix| == 4 && AllDigits(suffix)
    ensures var uuid := Stamp(now) + suffix;
      |uuid| == 16 && AllDigits(uuid) && uuid[..12] == Stamp(now) && uuid[12..] == suffix
  {
    var uuid := Stamp(now) + suffix;
    assert forall i :: 0 <= i < 12 ==> uuid[i] == Stamp(now)[i];
    assert forall i :: 12 <= i < 16 ==> uuid[i] == suffix[i - 12];
  }

  datatype CreateData = CreateData(uuid: string)

  /** `new_product`: creates `{uuid, init: false, delete: false}`; the four
      random digits are a parameter. */
  method NewProduct(state: AppState, now: DateTime, suffix: string) returns (r: StdJsonResponse<CreateData>)
    requires state.Valid()
    requires |suffix| == 4 && AllDigits(suffix)
    modifies state
    ensures state.Valid()
    ensures state.profile == old(state.profile) + [ProfileDoc(Stamp(now) + suffix, false, Some(false), None)]
    ensures state.user == old(state.user)
    ensures r == GenStdJsonResponse(Some(CreateData(Stamp(now) + suffix)), None)
  {
    var uuid := Stamp(now) + suffix;
    state.profile := state.profile + [ProfileDoc(uuid, false, Some(false), None)];
    r := GenStdJsonResponse(Some(CreateData(uuid)), None);
  }

  // ---- init, query, get ----

  datatype InitData = InitData(exist: bool)

  /** `init_product`: a known uuid is reported as existing and nothing is
      written; an unknown one gets a `{uuid, init: false}` document. */
  method InitProduct(state: AppState, uuid: string) returns (r: StdJsonResponse<InitData>)
    requires state.Valid()
    modifies state
    ensures state.Valid()
    ensures state.user == old(state.user)
    ensures FirstMatch(old(state.profile), WithUuid(uuid)).Some? ==>
      r == GenStdJsonResponse(Some(InitData(true)), None) && state.profile == old(state.profile)
    ensures FirstMatch(old(state.profile), WithUuid(uuid)).None? ==>
      && r == GenStdJsonResponse(Some(InitData(false)), None)
      && state.profile == old(state.profile) + [ProfileDoc(uuid, false, None, None)]
  {
    if FirstMatch(state.profile, WithUuid(uuid)).Some? {
      r := GenStdJsonResponse(Some(InitData(true)), None);
    } else {
      state.profile := state.profile + [ProfileDoc(uuid, false, None, None)];
      r := GenStdJsonResponse(Some(InitData(false)), None);
    }
  }

  datatype QueryData = QueryData(exist: bool, init: bool)

  /** `query_profile`: whether a document with the uuid exists, and if so its `init`. */
  function QueryProfile(docs: seq<ProfileDoc>, uuid: string): (r: StdJsonResponse<QueryData>)
    ensures r.success && r.data.Some?
    ensures r.data.value.exist <==> exists i :: 0 <= i < |docs| && docs[i].uuid == uuid
    ensures !r.data.value.exist ==> !r.data.value.init
    ensures r.data.value.exist ==> r.data.value.init == docs[FirstMatch(docs, WithUuid(uuid)).value].init
  {
    match FirstMatch(docs, WithUuid(uuid))
    case None => GenStdJsonResponse(Some(QueryData(false, false)), None)
    case Some(i) =>
      assert WithUuid(uuid)(docs[i]);
      GenStdJsonResponse(Some(QueryData(true, docs[i].init)), None)
  }

  /** After `init_product` on an unknown uuid, a query finds it, not yet initialised. */
  lemma InitThenQuery(docs: seq<ProfileDoc>, uuid: string)
    requires FirstMatch(docs, WithUuid(uuid)).None?
    ensures QueryProfile(docs + [ProfileDoc(uuid, false, None, None)], uuid).data == Some(QueryData(true, false))
  {
    FirstMatchAppend(docs, ProfileDoc(uuid, false, None, None), WithUuid(uuid));
  }

  datatype GetData = GetData(profile: ProfileForm)

  /** `get_profile`: the form of an initialised document; a document not yet
      filled in and a missing one are refused with their own messages. A
      document marked `init` without a form would make the parse panic. */
  function GetProfile(docs: seq<ProfileDoc>, uuid: string): (r: Reply<GetData>)
    ensures FirstMatch(docs, WithUuid(uuid)).None? ==> r == Reply(Refuse(ProfileMissingMessage))
    ensures FirstMatch(docs, WithUuid(uuid)).Some? ==>
      var d := docs[FirstMatch(docs, WithUuid(uuid)).value];
      && (!d.init ==> r == Reply(Refuse(ProfileNotFilledMessage)))
      && (d.init && d.form.Some? ==> r == Reply(GenStdJsonResponse(Some(GetData(d.form.value)), None)))
      && (d.init && d.form.None? ==> r == Panicked)
  {
    match FirstMatch(docs, WithUuid(uuid))
    case None => Reply(Refuse(ProfileMissingMessage))
    case Some(i) =>
      if !docs[i].init then Reply(Refuse(ProfileNotFilledMessage))
      else if docs[i].form.None? then Panicked
      else Reply(GenStdJsonResponse(Some(GetData(docs[i].form.value)), None))
  }

  /** On the documents the handlers leave, `get_profile` never panics, and it
      succeeds exactly when the document exists and is initialised. */
  lemma GetProfileTotal(docs: seq<ProfileDoc>, uuid: string)
    requires forall i :: 0 <= i < |docs| ==> WellFormed(docs[i])
    ensures GetProfile(docs, uuid).Reply?
    ensures GetProfile(docs, uuid).response.success <==>
      QueryProfile(docs, uuid).data == Some(QueryData(true, true))
  {
    match FirstMatch(docs, WithUuid(uuid))
    case None =>
    case Some(i) => assert WellFormed(docs[i]);
  }

  // ---- submit_profile ----

  /** What the code-to-session endpoint answered, once its reply parsed. */
  datatype OpenIdResponse = OpenIdResponse(errcode: int, openid: Option<string>)

  /** The refusal for a non-zero errcode; `None` for 0, the success code. */
  function ErrcodeMessage(errcode: int): (m: Option<string>)
    ensures m.None? <==> errcode == 0
    ensures errcode == -1 ==> m == Some(WechatBusyMessage)
    ensures errcode == 40029 ==> m == Some(InvalidCodeMessage)
    ensures errcode == 45011 ==> m == Some(RateLimitedMessage)
    ensures errcode !in {-1, 0, 40029, 45011} ==> m == Some(WechatErrorMessage)
  {
    if errcode == -1 then Some(WechatBusyMessage)
    else if errcode == 40029 then Some(InvalidCodeMessage)
    else if errcode == 45011 then Some(RateLimitedMessage)
    else if errcode == 0 then None
    else Some(WechatErrorMessage)
  }

  datatype UpdateData = UpdateData(exist: bool, init: bool, updatedCount: int)

  /** `submit_profile`. A missing document and an already initialised one are
      answered without a write. Otherwise a non-empty `openID` in the form is
      a login code exchanged with the WeChat service (`wechat`: `None` when
      that request or its parse fails, which panics); a non-zero errcode is
      refused with its message, errcode 0 puts the returned openid in the
      form. The form is then `$set` on the first document with the uuid, and
      `updated_count` is 1 when that changed the document, 0 when not. */
  method SubmitProfile(state: AppState, form: ProfileForm, wechat: Option<OpenIdResponse>)
    returns (r: Reply<UpdateData>)
    requires state.Valid()
    modifies state
    ensures state.Valid()
    ensures state.user == old(state.user)
    ensures FirstMatch(old(state.profile), WithUuid(form.uuid)).None? ==>
      r == Reply(GenStdJsonResponse(Some(UpdateData(false, false, 0)), None)) && state.profile == old(state.profile)
    ensures FirstMatch(old(state.profile), WithUuid(form.uuid)).Some? ==>
      var i := FirstMatch(old(state.profile), WithUuid(form.uuid)).value;
      && (old(state.profile)[i].init ==>
            r == Reply(GenStdJsonResponse(Some(UpdateData(true, true, 0)), None))
            && state.profile == old(state.profile))
      && (!old(state.profile)[i].init && form.openId != "" && wechat.None? ==>
            r == Panicked && state.profile == old(state.profile))
      && (!old(state.profile)[i].init && form.openId != "" && wechat.Some? && wechat.value.errcode != 0 ==>
            r == Reply(Refuse(ErrcodeMessage(wechat.value.errcode).value)) && state.profile == old(state.profile))
      && (!old(state.profile)[i].init && form.openId != "" && wechat.Some? && wechat.value.errcode == 0
          && wechat.value.openid.None? ==>
            r == Panicked && state.profile == old(state.profile))
      && (!old(state.profile)[i].init && r.Reply? && r.response.success ==>
            var stored := if form.openId == "" then form else form.(openId := wechat.value.openid.value);
            && state.profile == old(state.profile)[i := FromForm(stored)]
            && r.response.data == Some(UpdateData(true, false, if FromForm(stored) != old(state.profile)[i] then 1 else 0)))
      && (!old(state.profile)[i].init && (form.openId == "" || (wechat.Some? && wechat.value.errcode == 0 && wechat.value.openid.Some?)) ==>
            r.Reply? && r.response.success)
  {
    var found := FirstMatch(state.profile, WithUuid(form.uuid));
    if found.None? {
      return Reply(GenStdJsonResponse(Some(UpdateData(false, false, 0)), None));
    }
    var i := found.value;
    var doc := state.profile[i];
    if doc.init {
      return Reply(GenStdJsonResponse(Some(UpdateData(true, true, 0)), None));
    }
    var stored := form;
    if form.openId != "" {
      if wechat.None? {
        return Panicked;
      }
      var message := ErrcodeMessage(wechat.value.errcode);
      if message.Some? {
        return Reply(Refuse(message.value));
      }
      if wechat.value.openid.None? {
        return Panicked;
      }
      stored := form.(openId := wechat.value.openid.value);
    }
    var updated := FromForm(stored);
    var count := if updated != doc then 1 else 0;
    state.profile := state.profile[i := updated];
    r := Reply(GenStdJsonResponse(Some(UpdateData(true, false, count)), None));
  }

  // ---- staff users ----

  /** The claims of a legacy token: the username and the expiry, in seconds
      since the epoch cast to `usize`. */
  datatype LegacyClaims = LegacyClaims(exp: nat, usr: string)

  const JwtCookieName: string := "JWT"
  /** The cookie domain the login sets, a literal placeholder in the source. */
  const JwtCookieDomain: string := "null"

  datatype LegacyCookie = LegacyCookie(name: string, value: string, domain: string)

  datatype LoginData = LoginData(jwt: bool)

  /** A login's answer and the cookie it sets, if any. */
  datatype LoginReply = LoginReply(response: StdJsonResponse<LoginData>, cookie: Option<LegacyCookie>)

  /** The claims a legacy login signs: the username, and now plus seven days. */
  function LoginClaims(username: string, now: Instant): LegacyClaims {
    LegacyClaims(AsUsize(now.secs + WeekSeconds), username)
  }

  /** `login`: the first user document with the username; the submitted
      password's keyed hash (`hmac`, upper-case hex) must equal the stored one;
      then the signed claims go into a `JWT` cookie. */
  function Login(users: seq<UserDoc>, username: string, pwhashed: string,
                 hmac: string -> string, now: Instant, encode: LegacyClaims -> Option<string>)
    : (r: LoginReply)
    ensures r.response.success <==> r.cookie.Some?
    ensures FirstMatch(users, WithUsername(username)).None? ==>
      r == LoginReply(Refuse(UserMissingMessage), None)
    ensures FirstMatch(users, WithUsername(username)).Some? ==>
      var stored := users[FirstMatch(users, WithUsername(username)).value];
      var token := encode(LoginClaims(username, now));
      && (hmac(pwhashed) != stored.pwhashed ==> r == LoginReply(Refuse(WrongPasswordMessage), None))
      && (hmac(pwhashed) == stored.pwhashed && token.None? ==> r == LoginReply(Refuse(TokenErrorMessage), None))
      && (hmac(pwhashed) == stored.pwhashed && token.Some? ==>
            r == LoginReply(GenStdJsonResponse(Some(LoginData(true)), None),
                            Some(LegacyCookie(JwtCookieName, token.value, JwtCookieDomain))))
  {
    match FirstMatch(users, WithUsername(username))
    case None => LoginReply(Refuse(UserMissingMessage), None)
    case Some(i) =>
      if hmac(pwhashed) != users[i].pwhashed then LoginReply(Refuse(WrongPasswordMessage), None)
      else match encode(LoginClaims(username, now))
        case None => LoginReply(Refuse(TokenErrorMessage), None)
        case Some(token) =>
          LoginReply(GenStdJsonResponse(Some(LoginData(true)), None),
                     Some(LegacyCookie(JwtCookieName, token, JwtCookieDomain)))
  }

  datatype RegisterData = RegisterData(username: string)

  /** `raw_register`: a taken username is refused; otherwise a document with
      the username and the keyed hash of the password is added. */
  method RawRegister(state: AppState, username: string, pwhashed: string, hmac: string -> string)
    returns (r: StdJsonResponse<RegisterData>)
    modifies state
    ensures state.profile == old(state.profile)
    ensures FirstMatch(old(state.user), WithUsername(username)).Some? ==>
      r == Refuse(UserExistsMessage) && state.user == old(state.user)
    ensures FirstMatch(old(state.user), WithUsername(username)).None? ==>
      && r == GenStdJsonResponse(Some(RegisterData(username)), None)
      && state.user == old(state.user) + [UserDoc(username, hmac(pwhashed))]
  {
    if FirstMatch(state.user, WithUsername(username)).Some? {
      r := Refuse(UserExistsMessage);
    } else {
      state.user := state.user + [UserDoc(username, hmac(pwhashed))];
      r := GenStdJsonResponse(Some(RegisterData(username)), None);
    }
  }

  /** Registering a new username and then logging in with the same password
      succeeds whenever the token can be signed, and fails otherwise. */
  lemma RegisterThenLogin(users: seq<UserDoc>, username: string, pwhashed: string,
                          hmac: string -> string, now: Instant, encode: LegacyClaims -> Option<string>)
    requires FirstMatch(users, WithUsername(username)).None?
    ensures var r := Login(users + [UserDoc(username, hmac(pwhashed))], username, pwhashed, hmac, now, encode);
      r.response.success <==> encode(LoginClaims(username, now)).Some?
  {
    FirstMatchAppend(users, UserDoc(username, hmac(pwhashed)), WithUsername(username));
  }
}
