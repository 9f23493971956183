/** The `/auth` router: login, the current user, the password-reset pair
    and logout. bcrypt and the token library are the functions of `Env`. */
module Auth {
  import opened Js
  import opened Entities
  import opened Http
  import opened Db
  import opened Utils
  import opened Routes
  import opened RequireAuth

  /** The user columns login and `/auth/me` answer with. */
  const AccountView: set<string> := {"id", "name", "email", "role"}

  function Account(id: Id, u: User): (o: Obj)
    ensures "password" !in o && "phone" !in o
    ensures o.Keys == {"id", "name", "email", "role"}
  {
    Select(UserRow(id, u), AccountView)
  }

  // ---------------------------------------------------------------------------
  // POST /auth/login

  const MissingCredentials: Reply := Json(400, ErrorBody("Missing email or password"))
  const InvalidCredentials: Reply := Json(401, ErrorBody("Invalid credentials"))

  /** The answer to a good login: a token naming the user and the role, sent
      both as the `token` cookie and in the body with the account. */
  function LoggedIn(env: Env, id: Id, u: User): (r: Reply)
    ensures r.status == 200 && r.content.LoginBody? && r.cookie == SetToken(r.content.token)
    ensures r.content.token == env.sign(Claims(id, Some(u.role)))
    ensures r.content.user == Account(id, u)
  {
    var token := env.sign(Claims(id, Some(u.role)));
    Reply(200, LoginBody(token, Account(id, u)), SetToken(token))
  }

  /** The e-mail is looked up exactly as given. An unknown e-mail and a
      wrong password get the same 401. A value that is not a string makes
      the lookup, or bcrypt, throw. */
  method Login(db: Store, req: Request, env: Env) returns (reply: Reply)
    requires UniqueEmails(db.users)
    ensures var body := req.body;
      if !Truthy(Get(body, "email")) || !Truthy(Get(body, "password")) then reply == MissingCredentials
      else if !body["email"].Str? then reply == ServerError
      else match Holder(db.users, body["email"].s)
        case None => reply == InvalidCredentials
        case Some(k) =>
          if !body["password"].Str? then reply == ServerError
          else if !env.compare(body["password"].s, db.users[k].password) then reply == InvalidCredentials
          else reply == LoggedIn(env, k, db.users[k])
  {
    var body := req.body;
    if !Truthy(Get(body, "email")) || !Truthy(Get(body, "password")) {
      return MissingCredentials;
    }
    if !body["email"].Str? {
      return HandlePrismaError(Uncoded);
    }
    var found := db.FindByEmail(body["email"].s);
    if found.None? {
      return InvalidCredentials;
    }
    var k := found.value;
    if !body["password"].Str? {
      return HandlePrismaError(Uncoded);
    }
    if !env.compare(body["password"].s, db.users[k].password) {
      return InvalidCredentials;
    }
    reply := LoggedIn(env, k, db.users[k]);
  }

  /** Every stored e-mail is in normal form, so an e-mail with an upper-case
      letter or surrounding spaces finds no user: such a login is refused
      with 401 whatever the password. */
  lemma LoginIsExact(users: map<Id, User>, e: string)
    requires ValidUsers(users)
    requires !IsNormalEmail(e)
    ensures Holder(users, e).None?
  {
  }

  // ---------------------------------------------------------------------------
  // GET /auth/me

  method Me(db: Store, req: Request, env: Env) returns (reply: Reply)
    modifies req
    ensures match Authenticate(req.authorization, req.cookieToken, env)
      case Rejected(r) => reply == r
      case Authenticated(user) =>
        if user.id in db.users then reply == Json(200, MeBody(Account(user.id, db.users[user.id])))
        else reply == Json(404, ErrorBody("User not found"))
  {
    var step := RequireAuth.RequireAuth(req, env);
    if step.Halt? {
      return step.reply;
    }
    var id := req.user.value.id;
    if id !in db.users {
      return Json(404, ErrorBody("User not found"));
    }
    reply := Json(200, MeBody(Account(id, db.users[id])));
  }

  // ---------------------------------------------------------------------------
  // POST /auth/request-reset

  const MissingEmail: Reply := Json(400, ErrorBody("Missing email"))
  const ResetMaybeSent: Reply := Json(200, MessageBody("If that email exists, a reset link has been sent"))

  /** `APP_URL`, or the development address when it is unset or empty. */
  function AppUrl(env: Env): (url: string)
    ensures url != ""
  {
    if env.appUrl.Some? && env.appUrl.value != "" then env.appUrl.value else "http://localhost:3000"
  }

  function ResetLink(env: Env, token: string): (link: string)
    ensures link == AppUrl(env) + "/reset-password?token=" + token
    ensures |link| > |token|
  {
    AppUrl(env) + "/reset-password?token=" + token
  }

  /** A known e-mail gets a link holding a token for that user, without a
      role; an unknown one gets a message that does not say whether the
      user exists and holds no link. */
  method RequestReset(db: Store, req: Request, env: Env) returns (reply: Reply)
    requires UniqueEmails(db.users)
    ensures var body := req.body;
      if !Truthy(Get(body, "email")) then reply == MissingEmail
      else if !body["email"].Str? then reply == ServerError
      else match Holder(db.users, body["email"].s)
        case None => reply == ResetMaybeSent
        case Some(k) =>
          reply == Json(200, ResetLinkBody("Reset link (development)", ResetLink(env, env.sign(Claims(k, None)))))
  {
    var body := req.body;
    if !Truthy(Get(body, "email")) {
      return MissingEmail;
    }
    if !body["email"].Str? {
      return HandlePrismaError(Uncoded);
    }
    var found := db.FindByEmail(body["email"].s);
    if found.None? {
      return ResetMaybeSent;
    }
    var token := env.sign(Claims(found.value, None));
    reply := Json(200, ResetLinkBody("Reset link (development)", ResetLink(env, token)));
  }

  // ---------------------------------------------------------------------------
  // POST /auth/reset

  const MissingResetFields: Reply := Json(400, ErrorBody("Missing token or newPassword"))
  const BadResetToken: Reply := Json(400, ErrorBody("Invalid or expired token"))

  /** The user whose password the reset changes: the `sub` of any token
      that verifies, whichever route issued it. A token that is not a
      string fails verification. */
  function ResetSubject(env: Env, token: Value): (r: Option<Id>)
    ensures r.Some? <==> token.Str? && env.verify(token.s).Some?
    ensures r.Some? ==> r.value == env.verify(token.s).value.sub
  {
    if token.Str? && env.verify(token.s).Some? then Some(env.verify(token.s).value.sub) else None
  }

  /** The reset reads only the verified token's `sub`: two tokens naming
      the same user reset the same password, whatever role either carries,
      so a login token works as well as a reset token. */
  lemma ResetIgnoresRole(env: Env, a: string, b: string)
    requires env.verify(a).Some? && env.verify(b).Some?
    requires env.verify(a).value.sub == env.verify(b).value.sub
    ensures ResetSubject(env, Str(a)) == ResetSubject(env, Str(b)) == Some(env.verify(a).value.sub)
  {
  }

  method Reset(db: Store, req: Request, env: Env) returns (reply: Reply)
    modifies db
    ensures db.clients == old(db.clients) && db.addresses == old(db.addresses) && db.vendors == old(db.vendors)
    ensures db.weddings == old(db.weddings) && db.tasks == old(db.tasks)
    ensures old(db.Valid()) ==> db.Valid()
    ensures old(db.RefsIntact()) ==> db.RefsIntact()
    ensures var body := req.body;
      if !Truthy(Get(body, "token")) || !Truthy(Get(body, "newPassword")) then
        reply == MissingResetFields && db.users == old(db.users)
      else match ResetSubject(env, body["token"])
        case None => reply == BadResetToken && db.users == old(db.users)
        case Some(k) =>
          if !body["newPassword"].Str? then reply == ServerError && db.users == old(db.users)
          else if k !in old(db.users) then reply == NotFound && db.users == old(db.users)
          else
            db.users == old(db.users)[k := old(db.users)[k].(password := env.hash(body["newPassword"].s))]
            && reply == Json(200, MessageBody("Password updated"))
  {
    var body := req.body;
    if !Truthy(Get(body, "token")) || !Truthy(Get(body, "newPassword")) {
      return MissingResetFields;
    }
    var subject := ResetSubject(env, body["token"]);
    if subject.None? {
      return BadResetToken;
    }
    if !body["newPassword"].Str? {
      return HandlePrismaError(Uncoded);
    }
    var k := subject.value;
    if k !in db.users {
      return HandlePrismaError(RecordMissing);
    }
    var u := db.users[k].(password := env.hash(body["newPassword"].s));
    db.PutUser(k, u);
    reply := Json(200, MessageBody("Password updated"));
  }

  // ---------------------------------------------------------------------------
  // POST /auth/logout

  method Logout() returns (reply: Reply)
    ensures reply.cookie == ClearToken
    ensures reply.status == 200 && reply.content == MessageBody("Logged out")
  {
    reply := Reply(200, MessageBody("Logged out"), ClearToken);
  }
}
