/** The account handlers: password and WeChat login, registration, password
    and role changes, removal, listings and per-role statistics. The password
    hash and its check are the `hash` and `verify` parameters, the token
    signer is `encode`, and the two WeChat calls are reduced to what they
    return. */
module UserRoutes {
  import opened Wrappers
  import opened Time
  import opened Responses
  import opened Models
  import opened Store
  import Auth

  const DoneMessage: string := "完成"

  /** The response's cookie jar, keyed by cookie name: adding a cookie
      replaces one of the same name. */
  class CookieJar {
    var cookies: map<string, Auth.Cookie>

    constructor ()
      ensures cookies == map[]
    {
      cookies := map[];
    }

    method Add(c: Auth.Cookie)
      modifies this
      ensures cookies == old(cookies)[c.name := c]
    {
      cookies := cookies[c.name := c];
    }

    method Remove(name: string)
      modifies this
      ensures cookies == old(cookies) - {name}
    {
      cookies := cookies - {name};
    }
  }

  /** A successful login: what is answered, and the cookie to set. */
  datatype Session = Session(digest: UserLoggedInDigest, cookie: Auth.Cookie)

  /** Logging a known user in: a token cookie for the row's id and role, and
      the row's username and role as the answer; a signing failure is a
      server error. */
  function IssueLogin(user: UserRow, now: Instant, encode: Auth.ClaimsPayload -> Option<string>)
    : (r: Result<Session, GenericError>)
    ensures r.Err? <==> Auth.GenTokenCookie(user.id, user.role, now, encode).Err?
    ensures r.Err? ==> r.error == ServerInternalError
    ensures r.Ok? ==>
      && r.value.digest == UserLoggedInDigest(user.username, user.role)
      && r.value.cookie == Auth.GenTokenCookie(user.id, user.role, now, encode).value
      && r.value.cookie.name == Auth.TokenCookieName
  {
    match Auth.GenTokenCookie(user.id, user.role, now, encode)
    case Err(_) => Err(ServerInternalError)
    case Ok(cookie) => Ok(Session(UserLoggedInDigest(user.username, user.role), cookie))
  }

  /** Answer with a login outcome, setting its cookie when it succeeded. */
  method Deliver(jar: CookieJar, outcome: Result<Session, GenericError>) returns (r: GenericResult<UserLoggedInDigest>)
    modifies jar
    ensures outcome.Err? ==> r == Err(outcome.error) && jar.cookies == old(jar.cookies)
    ensures outcome.Ok? ==>
      r == Build(outcome.value.digest) && jar.cookies == old(jar.cookies)[outcome.value.cookie.name := outcome.value.cookie]
  {
    match outcome
    case Err(e) =>
      r := Err(e);
    case Ok(session) =>
      jar.Add(session.cookie);
      r := Build(session.digest);
  }

  // ---- password login ----

  /** What `login` decides: the user named `username` must exist, have a
      password set, and the stored hash must accept `password`. A checker
      error is an authentication error. */
  function LoginOutcome(users: map<int, UserRow>, username: string, password: string,
                        verify: (string, string) -> Option<bool>,
                        now: Instant, encode: Auth.ClaimsPayload -> Option<string>)
    : (r: Result<Session, GenericError>)
    ensures r == Err(UserNotExistError) <==> Selected(users, HasUsername(username)) == {}
    ensures First(users, HasUsername(username)).Ok? ==>
      var user := First(users, HasUsername(username)).value;
      && user.username == Some(username)
      && (r == Err(PasswordNotSetError) <==> user.passwordHashed.None?)
      && (user.passwordHashed.Some? ==>
            && (r == Err(AuthError) <==> verify(user.passwordHashed.value, password).None?)
            && (r == Err(PasswordIncorrectError) <==> verify(user.passwordHashed.value, password) == Some(false))
            && (verify(user.passwordHashed.value, password) == Some(true) ==> r == IssueLogin(user, now, encode)))
    ensures r.Ok? ==>
      && First(users, HasUsername(username)).Ok?
      && r.value.digest == UserLoggedInDigest(Some(username), First(users, HasUsername(username)).value.role)
  {
    match First(users, HasUsername(username))
    case Err(_) => Err(UserNotExistError)
    case Ok(user) =>
      match user.passwordHashed
      case None => Err(PasswordNotSetError)
      case Some(hashed) =>
        match verify(hashed, password)
        case None => Err(AuthError)
        case Some(false) => Err(PasswordIncorrectError)
        case Some(true) => IssueLogin(user, now, encode)
  }

  /** `login`. */
  method Login(db: Database, jar: CookieJar, username: string, password: string,
               verify: (string, string) -> Option<bool>, now: Instant, encode: Auth.ClaimsPayload -> Option<string>)
    returns (r: GenericResult<UserLoggedInDigest>)
    modifies jar
    ensures var o := LoginOutcome(db.users, username, password, verify, now, encode);
      && (o.Err? ==> r == Err(o.error) && jar.cookies == old(jar.cookies))
      && (o.Ok? ==> r == Build(o.value.digest) && jar.cookies == old(jar.cookies)[Auth.TokenCookieName := o.value.cookie])
  {
    r := Deliver(jar, LoginOutcome(db.users, username, password, verify, now, encode));
  }

  // ---- registration ----

  /** The row `register` inserts: the username, a `User` role and the
      password hash, with no WeChat id or phone number. */
  function RegisteredUser(id: int, username: string, hashed: string, now: Instant): (u: UserRow)
    ensures u.id == id && u.username == Some(username) && u.role == User
    ensures u.passwordHashed == Some(hashed) && u.wechatId == None && u.phoneNumber == None
    ensures u.signUpTime == now
  {
    UserRow(id, Some(username), None, User, Some(hashed), None, now)
  }

  /** `register`. A taken username is refused and nothing changes; a hashing
      failure is a server error. Otherwise the user is inserted and then
      logged in; a signing failure after the insert leaves the user in place. */
  method Register(db: Database, jar: CookieJar, username: string, password: string,
                  hash: string -> Option<string>, now: Instant, encode: Auth.ClaimsPayload -> Option<string>)
    returns (r: GenericResult<UserLoggedInDigest>)
    requires db.Valid()
    modifies db, jar
    ensures db.Valid()
    ensures db.products == old(db.products) && db.profiles == old(db.profiles) && db.reports == old(db.reports)
    ensures db.productSeq == old(db.productSeq) && db.profileSeq == old(db.profileSeq)
    ensures First(old(db.users), HasUsername(username)).Ok? ==>
      && r == Err(UserAlreadyExistsError)
      && db.users == old(db.users) && db.userSeq == old(db.userSeq) && jar.cookies == old(jar.cookies)
    ensures First(old(db.users), HasUsername(username)).Err? && hash(password).None? ==>
      && r == Err(ServerInternalError)
      && db.users == old(db.users) && db.userSeq == old(db.userSeq) && jar.cookies == old(jar.cookies)
    ensures First(old(db.users), HasUsername(username)).Err? && hash(password).Some? ==>
      var row := RegisteredUser(old(db.userSeq), username, hash(password).value, now);
      var o := IssueLogin(row, now, encode);
      && old(db.userSeq) !in old(db.users)
      && db.users == old(db.users)[old(db.userSeq) := row]
      && db.userSeq == old(db.userSeq) + 1
      && (o.Err? ==> r == Err(ServerInternalError) && jar.cookies == old(jar.cookies))
      && (o.Ok? ==> r == Build(UserLoggedInDigest(Some(username), User))
                    && jar.cookies == old(jar.cookies)[Auth.TokenCookieName := o.value.cookie])
  {
    if First(db.users, HasUsername(username)).Ok? {
      return Err(UserAlreadyExistsError);
    }
    var hashed := hash(password);
    if hashed.None? {
      return Err(ServerInternalError);
    }
    var id := db.userSeq;
    var row := RegisteredUser(id, username, hashed.value, now);
    db.users := db.users[id := row];
    db.userSeq := id + 1;
    r := Deliver(jar, IssueLogin(row, now, encode));
  }

  /** A row inserted under a fresh key into a table where nothing matched
      before is the only match afterwards, so it is what a lookup finds. */
  lemma InsertedIsOnlyMatch<T>(table: map<int, T>, keep: T -> bool, id: int, row: T)
    requires Selected(table, keep) == {}
    requires id !in table && keep(row)
    ensures Selected(table[id := row], keep) == {id}
    ensures First(table[id := row], keep) == Ok(row)
  {
    var after := table[id := row];
    forall k | k in after && k != id
      ensures !keep(after[k])
    {
      assert k !in Selected(table, keep);
    }
    assert id in Selected(after, keep);
  }

  /** A user who has just registered can log in with the same password, as
      long as the checker accepts what the hasher produced (a property of the
      library, stated here rather than assumed), and the session is the one
      registration issued. */
  lemma RegisterThenLogin(users: map<int, UserRow>, id: int, username: string, password: string,
                          hash: string -> Option<string>, verify: (string, string) -> Option<bool>,
                          now: Instant, encode: Auth.ClaimsPayload -> Option<string>)
    requires First(users, HasUsername(username)).Err? && id !in users
    requires hash(password).Some? && verify(hash(password).value, password) == Some(true)
    ensures var row := RegisteredUser(id, username, hash(password).value, now);
      LoginOutcome(users[id := row], username, password, verify, now, encode) == IssueLogin(row, now, encode)
  {
    var row := RegisteredUser(id, username, hash(password).value, now);
    InsertedIsOnlyMatch(users, HasUsername(username), id, row);
  }

  // ---- WeChat login ----

  /** The row a first WeChat login inserts: the WeChat nickname as username,
      the `openid` as WeChat id, a `User` role and no password. */
  function WechatUser(id: int, nickname: string, openid: string, now: Instant): (u: UserRow)
    ensures u.id == id && u.username == Some(nickname) && u.wechatId == Some(openid) && u.role == User
    ensures u.passwordHashed == None && u.phoneNumber == None && u.signUpTime == now
  {
    UserRow(id, Some(nickname), Some(openid), User, None, None, now)
  }

  /** `wechat_login`, given what the two WeChat calls returned: the `openid`
      of the OAuth code exchange (`None` when it failed) and the nickname of
      the user-info call (`None` when it failed; asked for only when the
      `openid` is new). A known `openid` logs its user in with no insert; a
      new one inserts a user and logs it in. */
  method WechatLogin(db: Database, jar: CookieJar, openid: Option<string>, nickname: Option<string>,
                     now: Instant, encode: Auth.ClaimsPayload -> Option<string>)
    returns (r: GenericResult<UserLoggedInDigest>)
    requires db.Valid()
    modifies db, jar
    ensures db.Valid()
    ensures db.products == old(db.products) && db.profiles == old(db.profiles) && db.reports == old(db.reports)
    ensures db.productSeq == old(db.productSeq) && db.profileSeq == old(db.profileSeq)
    ensures openid.None? ==>
      && r == Err(GetWechatOpenIdError)
      && db.users == old(db.users) && db.userSeq == old(db.userSeq) && jar.cookies == old(jar.cookies)
    ensures openid.Some? && First(old(db.users), HasWechatId(openid.value)).Ok? ==>
      var o := IssueLogin(First(old(db.users), HasWechatId(openid.value)).value, now, encode);
      && db.users == old(db.users) && db.userSeq == old(db.userSeq)
      && (o.Err? ==> r == Err(ServerInternalError) && jar.cookies == old(jar.cookies))
      && (o.Ok? ==> r == Build(o.value.digest) && jar.cookies == old(jar.cookies)[Auth.TokenCookieName := o.value.cookie])
    ensures openid.Some? && First(old(db.users), HasWechatId(openid.value)).Err? && nickname.None? ==>
      && r == Err(GetWechatUserinfoError)
      && db.users == old(db.users) && db.userSeq == old(db.userSeq) && jar.cookies == old(jar.cookies)
    ensures openid.Some? && First(old(db.users), HasWechatId(openid.value)).Err? && nickname.Some? ==>
      var row := WechatUser(old(db.userSeq), nickname.value, openid.value, now);
      var o := IssueLogin(row, now, encode);
      && old(db.userSeq) !in old(db.users)
      && db.users == old(db.users)[old(db.userSeq) := row]
      && db.userSeq == old(db.userSeq) + 1
      && (o.Err? ==> r == Err(ServerInternalError) && jar.cookies == old(jar.cookies))
      && (o.Ok? ==> r == Build(UserLoggedInDigest(nickname, User))
                    && jar.cookies == old(jar.cookies)[Auth.TokenCookieName := o.value.cookie])
  {
    if openid.None? {
      return Err(GetWechatOpenIdError);
    }
    var known := First(db.users, HasWechatId(openid.value));
    if known.Ok? {
      r := Deliver(jar, IssueLogin(known.value, now, encode));
      return;
    }
    if nickname.None? {
      return Err(GetWechatUserinfoError);
    }
    var id := db.userSeq;
    var row := WechatUser(id, nickname.value, openid.value, now);
    db.users := db.users[id := row];
    db.userSeq := id + 1;
    r := Deliver(jar, IssueLogin(row, now, encode));
  }

  /** After a first WeChat login inserted its user, the same `openid` finds
      that user, so a later login inserts nothing and logs the same row in. */
  lemma WechatUserFoundAgain(users: map<int, UserRow>, id: int, nickname: string, openid: string, now: Instant)
    requires First(users, HasWechatId(openid)).Err? && id !in users
    ensures First(users[id := WechatUser(id, nickname, openid, now)], HasWechatId(openid))
         == Ok(WechatUser(id, nickname, openid, now))
  {
    InsertedIsOnlyMatch(users, HasWechatId(openid), id, WechatUser(id, nickname, openid, now));
  }

  // ---- session and account changes ----

  /** `verify_login`: the caller's own row, as a digest. */
  function VerifyLogin(users: map<int, UserRow>, caller: Auth.UserDigest): (r: GenericResult<UserLoggedInDigest>)
    ensures r.Ok? <==> caller.userId in users
    ensures r.Ok? ==> r.value.data == UserLoggedInDigest(users[caller.userId].username, users[caller.userId].role)
    ensures r.Err? ==> r.error == DieselError(NotFound)
  {
    match Find(users, caller.userId)
    case Err(e) => Err(DieselError(e))
    case Ok(user) => Build(UserLoggedInDigest(user.username, user.role))
  }

  /** `logout`: drop the token cookie if there is one; always done. */
  method Logout(jar: CookieJar) returns (r: GenericResult<string>)
    modifies jar
    ensures r == Build(DoneMessage)
    ensures jar.cookies == old(jar.cookies) - {Auth.TokenCookieName}
  {
    if Auth.TokenCookieName in jar.cookies {
      jar.Remove(Auth.TokenCookieName);
    }
    r := Build(DoneMessage);
  }

  /** `change_user_role`: set the role of the user with the id; no row
      changed is a server error. */
  method ChangeUserRole(db: Database, userId: int, newRole: RoleEnum) returns (r: GenericResult<string>)
    requires db.Valid()
    modifies db
    ensures db.Valid()
    ensures r.Ok? <==> userId in old(db.users)
    ensures r.Ok? ==> r == Build(DoneMessage) && db.users == old(db.users)[userId := old(db.users)[userId].(role := newRole)]
    ensures r.Err? ==> r.error == ServerInternalError && db.users == old(db.users)
    ensures db.products == old(db.products) && db.profiles == old(db.profiles) && db.reports == old(db.reports)
    ensures db.productSeq == old(db.productSeq) && db.profileSeq == old(db.profileSeq) && db.userSeq == old(db.userSeq)
  {
    if userId !in db.users {
      return Err(ServerInternalError);
    }
    db.users := db.users[userId := db.users[userId].(role := newRole)];
    r := Build(DoneMessage);
  }

  /** `remove_user`: delete the user with the id; deleting nothing is a
      server error. */
  method RemoveUser(db: Database, admin: Auth.AdminAuth, userId: int) returns (r: GenericResult<string>)
    requires db.Valid()
    modifies db
    ensures db.Valid()
    ensures r.Ok? <==> userId in old(db.users)
    ensures r.Ok? ==> r == Build(DoneMessage)
    ensures r.Err? ==> r.error == ServerInternalError
    ensures db.users == old(db.users) - {userId}
    ensures db.products == old(db.products) && db.profiles == old(db.profiles) && db.reports == old(db.reports)
    ensures db.productSeq == old(db.productSeq) && db.profileSeq == old(db.profileSeq) && db.userSeq == old(db.userSeq)
  {
    var deleted := if userId in db.users then 1 else 0;
    db.users := db.users - {userId};
    if deleted == 1 {
      r := Build(DoneMessage);
    } else {
      r := Err(ServerInternalError);
    }
  }

  /** `change_password`: the caller may change only their own password, and
      only by naming their own username; a user without a username may not. */
  method ChangePassword(db: Database, caller: Auth.UserDigest, username: string, password: string,
                        hash: string -> Option<string>)
    returns (r: GenericResult<string>)
    requires db.Valid()
    modifies db
    ensures db.Valid()
    ensures db.products == old(db.products) && db.profiles == old(db.profiles) && db.reports == old(db.reports)
    ensures db.productSeq == old(db.productSeq) && db.profileSeq == old(db.profileSeq) && db.userSeq == old(db.userSeq)
    ensures caller.userId !in old(db.users) ==> r == Err(DieselError(NotFound)) && db.users == old(db.users)
    ensures caller.userId in old(db.users) ==>
      var user := old(db.users)[caller.userId];
      && (user.username != Some(username) ==> r == Err(PermissionDeniedError) && db.users == old(db.users))
      && (user.username == Some(username) && hash(password).None? ==>
            r == Err(ServerInternalError) && db.users == old(db.users))
      && (user.username == Some(username) && hash(password).Some? ==>
            && r == Build(DoneMessage)
            && db.users == old(db.users)[caller.userId := user.(passwordHashed := hash(password))])
  {
    var found := Find(db.users, caller.userId);
    if found.Err? {
      return Err(DieselError(found.error));
    }
    var user := found.value;
    if user.username.None? || user.username.value != username {
      return Err(PermissionDeniedError);
    }
    var hashed := hash(password);
    if hashed.None? {
      return Err(ServerInternalError);
    }
    // `UPDATE users WHERE id = caller` touches the one row found above.
    db.users := db.users[caller.userId := user.(passwordHashed := hashed)];
    r := Build(DoneMessage);
  }

  /** After a password change, logging in with the new password reaches the
      caller's row, if the caller is the first user with that username and the
      checker accepts what the hasher produced. */
  lemma ChangedPasswordLogsIn(users: map<int, UserRow>, callerId: int, username: string, password: string,
                              hash: string -> Option<string>, verify: (string, string) -> Option<bool>,
                              now: Instant, encode: Auth.ClaimsPayload -> Option<string>)
    requires forall k :: k in users ==> users[k].id == k
    requires First(users, HasUsername(username)).Ok? && First(users, HasUsername(username)).value.id == callerId
    requires hash(password).Some? && verify(hash(password).value, password) == Some(true)
    ensures callerId in users
    ensures var after := users[callerId := users[callerId].(passwordHashed := hash(password))];
      LoginOutcome(after, username, password, verify, now, encode) == IssueLogin(after[callerId], now, encode)
  {
    var m := MinKey(Selected(users, HasUsername(username)));
    assert users[m].id == callerId;
    var after := users[callerId := users[callerId].(passwordHashed := hash(password))];
    forall k | k in users
      ensures HasUsername(username)(after[k]) == HasUsername(username)(users[k])
    {
    }
    assert Selected(after, HasUsername(username)) == Selected(users, HasUsername(username));
  }

  // ---- listings and statistics ----

  /** `get_users`: a page of the users with one role, in id order. */
  function GetUsers(users: map<int, UserRow>, page: int, filter: RoleEnum): (r: GenericResult<seq<UserRow>>)
    ensures r.Err? <==> PageOffset(page) < 0
    ensures r.Err? ==> r.error == DieselError(DatabaseError(NegativeOffsetMessage))
    ensures r.Ok? ==> r.value.data == ListPage(users, HasRole(filter), page).value
    ensures r.Ok? ==> |r.value.data| <= PageSize
    ensures r.Ok? ==> forall i :: 0 <= i < |r.value.data| ==> r.value.data[i].role == filter
  {
    match ListPage(users, HasRole(filter), page)
    case Err(e) => Err(DieselError(e))
    case Ok(rows) =>
      ListPageSound(users, HasRole(filter), page);
      Build(rows)
  }

  /** `get_all_users`: a page of all users in id order. */
  function GetAllUsers(users: map<int, UserRow>, page: int): (r: GenericResult<seq<UserRow>>)
    ensures r.Err? <==> PageOffset(page) < 0
    ensures r.Err? ==> r.error == DieselError(DatabaseError(NegativeOffsetMessage))
    ensures r.Ok? ==> r.value.data == ListPage(users, AnyUser(), page).value && |r.value.data| <= PageSize
  {
    match ListPage(users, AnyUser(), page)
    case Err(e) => Err(DieselError(e))
    case Ok(rows) => Build(rows)
  }

  datatype UserStatistics = UserStatistics(total: nat, admin: nat, staff: nat, user: nat)

  /** `get_user_statistics`: the table size and the count of each role. */
  function GetUserStatistics(admin: Auth.AdminAuth, users: map<int, UserRow>): (r: GenericResult<UserStatistics>)
    ensures r.Ok? && r.value.data.total == |users|
    ensures r.value.data.admin == Count(users, HasRole(Admin))
    ensures r.value.data.staff == Count(users, HasRole(Staff))
    ensures r.value.data.user == Count(users, HasRole(User))
  {
    Build(UserStatistics(|users|, Count(users, HasRole(Admin)), Count(users, HasRole(Staff)), Count(users, HasRole(User))))
  }

  /** Every user has exactly one role, so the three counts add up to the total. */
  lemma RolesPartitionUsers(admin: Auth.AdminAuth, users: map<int, UserRow>)
    ensures var s := GetUserStatistics(admin, users).value.data;
      s.admin + s.staff + s.user == s.total
  {
    var a := Selected(users, HasRole(Admin));
    var b := Selected(users, HasRole(Staff));
    var c := Selected(users, HasRole(User));
    assert |a + b| == |a| + |b| by {
      OtherRoles(users, Admin, Staff, {});
      RoleCount(users, Staff, a);
    }
    assert |a + b + c| == |a + b| + |c| by {
      OtherRoles(users, Admin, User, {});
      OtherRoles(users, Staff, User, a);
      RoleCount(users, User, a + b);
    }
    RolesCoverUsers(users);
  }

  /** Every user is in the selection of their own role. */
  lemma OwnRole(users: map<int, UserRow>, k: int)
    requires k in users
    ensures k in Selected(users, HasRole(users[k].role))
  {
    assert HasRole(users[k].role)(users[k]);
  }

  /** The three role selections together hold every user. */
  lemma RolesCoverUsers(users: map<int, UserRow>)
    ensures users.Keys == Selected(users, HasRole(Admin)) + Selected(users, HasRole(Staff)) + Selected(users, HasRole(User))
  {
    forall k | k in users
      ensures k in Selected(users, HasRole(Admin)) + Selected(users, HasRole(Staff)) + Selected(users, HasRole(User))
    {
      OwnRole(users, k);
      match users[k].role
      case Admin =>
      case Staff =>
      case User =>
    }
  }

  /** Adding the users of role `r1` to users of roles other than `r2` keeps
      them clear of `r2`. */
  lemma OtherRoles(users: map<int, UserRow>, r1: RoleEnum, r2: RoleEnum, others: set<int>)
    requires r1 != r2
    requires forall k :: k in others ==> k in users && users[k].role != r2
    ensures forall k :: k in others + Selected(users, HasRole(r1)) ==> k in users && users[k].role != r2
  {
    forall k | k in Selected(users, HasRole(r1))
      ensures users[k].role != r2
    {
      assert HasRole(r1)(users[k]);
    }
  }

  /** Adding the users of one more role to a set of users in other roles adds
      exactly that role's count. */
  lemma RoleCount(users: map<int, UserRow>, role: RoleEnum, others: set<int>)
    requires forall k :: k in others ==> k in users && users[k].role != role
    ensures var x := Selected(users, HasRole(role));
      |others + x| == |others| + |x|
  {
    var x := Selected(users, HasRole(role));
    forall k | k in x
      ensures k !in others
    {
      assert HasRole(role)(users[k]);
    }
    assert others * x == {};
  }
}
