/** The `/users` router: a list behind authentication and query
    validation, a public fetch and a public signup, an update behind
    authentication only, and a staff-only delete. No route ever answers
    with the password column. */
module Users {
  import opened Js
  import opened Entities
  import opened Http
  import opened Db
  import opened Utils
  import opened Routes
  import opened RequireAuth
  import opened RequireRole
  import opened Validate
  import opened UserSchemas

  /** A user as every route answers it: all columns but the password. */
  function UserView(id: Id, u: User): (o: Obj)
    ensures "password" !in o && o.Keys == UserRow(id, u).Keys - {"password"}
  {
    UserViewHidesPassword(id, u);
    Select(UserRow(id, u), UserPublic)
  }

  /** Some user other than `except` already holds e-mail `e`: the unique
      index refuses the write with P2002. */
  predicate EmailHeld(users: map<Id, User>, e: string, except: Option<Id>) {
    exists k :: k in users && Some(k) != except && users[k].email == e
  }

  /** A write that gives user `k` a normal e-mail no other user holds keeps
      the e-mails unique and normal. */
  lemma WriteKeepsValid(users: map<Id, User>, k: Id, u: User)
    requires ValidUsers(users)
    requires IsNormalEmail(u.email) && !EmailHeld(users, u.email, Some(k))
    ensures ValidUsers(users[k := u])
  {
    var users' := users[k := u];
    forall a, b | a in users' && b in users' && users'[a].email == users'[b].email
      ensures a == b
    {
      if a != k && b != k {
        assert users[a].email == users[b].email;
      }
    }
  }

  // ---------------------------------------------------------------------------
  // GET /users

  /** The `where` of the list: `search` matches the name or the e-mail,
      `email` the whole e-mail, both ignoring case; `role` is exact. */
  datatype UserWhere = UserWhere(search: Option<string>, email: Option<string>, role: Option<string>)

  function UserWhereOf(q: Obj): Result<UserWhere, Failure> {
    var search := FilterArg(Get(q, "search"));
    var email := FilterArg(Get(q, "email"));
    var role := FilterArg(Get(q, "role"));
    if search.Err? then Err(search.error)
    else if email.Err? then Err(email.error)
    else if role.Err? then Err(role.error)
    else Ok(UserWhere(search.value, email.value, role.value))
  }

  predicate UserMatches(w: UserWhere, u: User) {
    && (w.search.Some? ==> ContainsInsensitive(u.name, w.search.value) || ContainsInsensitive(u.email, w.search.value))
    && (w.email.Some? ==> EqualsInsensitive(u.email, w.email.value))
    && (w.role.Some? ==> Entities.RoleName(u.role) == w.role.value)
  }

  function UserFilter(w: UserWhere): User -> bool {
    u => UserMatches(w, u)
  }

  /** `orderBy: { createdAt: 'desc' }` */
  const NewestFirst: (User, User) -> bool := (a: User, b: User) => a.createdAt >= b.createdAt

  lemma NewestFirstIsOrder()
    ensures TotalPreorder(NewestFirst)
  {
  }

  /** A query the schema accepts always makes a valid `findMany`: each
      filter is a string, `take` is at least 1 and `skip` is not negative. */
  lemma ValidatedQueryLists(env: Env, query: Obj)
    requires UserQuery(env, query).Ok?
    ensures var q := UserQuery(env, query).value;
      && UserWhereOf(q).Ok? && PageOf(q).Ok?
      && (PageOf(q).value.take.Some? ==> PageOf(q).value.take.value >= 1)
      && (PageOf(q).value.skip.Some? ==> PageOf(q).value.skip.value >= 0)
  {
    UserQueryPaging(env, query);
    UserQueryFilters(env, query);
    QueryOf(UserQuery(env, query).value);
  }

  /** The `findMany` arguments made from a query of the validated shape. */
  lemma QueryOf(q: Obj)
    requires "search" in q ==> q["search"].Str?
    requires "email" in q ==> q["email"].Str?
    requires "role" in q ==> q["role"].Str?
    requires "limit" in q ==> q["limit"].Num? && q["limit"].n >= 1
    requires "offset" in q ==> q["offset"].Num? && q["offset"].n >= 0
    ensures UserWhereOf(q).Ok? && PageOf(q).Ok?
    ensures PageOf(q).value.take.Some? ==> PageOf(q).value.take.value >= 1
    ensures PageOf(q).value.skip.Some? ==> PageOf(q).value.skip.value >= 0
  {
    assert FilterArg(Get(q, "search")).Ok? && FilterArg(Get(q, "email")).Ok? && FilterArg(Get(q, "role")).Ok?;
    PageArgOfCount(Get(q, "limit"), 1);
    PageArgOfCount(Get(q, "offset"), 0);
    assert PageOf(q) == Ok(Page(PageArg(Get(q, "offset")).value, PageArg(Get(q, "limit")).value));
  }

  /** A validated count reads back as the same number. */
  lemma PageArgOfCount(o: Option<Value>, least: int)
    requires o.Some? ==> o.value.Num? && o.value.n >= least
    ensures PageArg(o).Ok?
    ensures PageArg(o).value.Some? ==> PageArg(o).value.value >= least
  {
    if o.Some? {
      ParseIntOfNumber(o.value.n);
    }
  }

  /** A role filter keeps exactly the users with that role. */
  lemma RoleFilterIsExact(w: UserWhere, u: User, r: Role)
    requires w.role == Some(Entities.RoleName(r))
    ensures UserMatches(w, u) ==> u.role == r
  {
  }

  method List(db: Store, req: Request, env: Env) returns (reply: Reply)
    modifies req
    ensures match Authenticate(req.authorization, req.cookieToken, env)
      case Rejected(r) => reply == r
      case Authenticated(_) =>
        match UserQuery(env, QueryOrEmpty(req.query))
        case Err(fields) => reply == ValidationFailed(fields)
        case Ok(q) =>
          && UserWhereOf(q).Ok? && PageOf(q).Ok?
          && ListedAs(reply, db.users, UserFilter(UserWhereOf(q).value), NewestFirst, PageOf(q).value, UserView)
  {
    var step := RequireAuth.RequireAuth(req, env);
    if step.Halt? {
      return step.reply;
    }
    var valid := ValidateQuery(req, (query: Obj) => UserQuery(env, query));
    if valid.Halt? {
      return valid.reply;
    }
    ValidatedQueryLists(env, QueryOrEmpty(req.query));
    var q := req.Query();
    var where := UserWhereOf(q);
    var page := PageOf(q);
    NewestFirstIsOrder();
    reply := ListRows(db.users, UserFilter(where.value), NewestFirst, page.value, UserView);
  }

  // ---------------------------------------------------------------------------
  // GET /users/:id

  method Show(db: Store, id: Id) returns (reply: Reply)
    ensures id in db.users ==> reply == Json(200, RowBody(UserView(id, db.users[id])))
    ensures id !in db.users ==> reply == Json(404, ErrorBody("User not found"))
  {
    if id !in db.users {
      return Json(404, ErrorBody("User not found"));
    }
    reply := Json(200, RowBody(UserView(id, db.users[id])));
  }

  // ---------------------------------------------------------------------------
  // POST /users

  /** The row `prisma.user.create` stores from the validated body: the name
      trimmed, the e-mail normalised, `phone?.trim() || null`, the hash of
      the password, and the role given or the schema's default. */
  function NewUser(env: Env, data: Obj, now: int): (r: Result<User, Failure>)
    ensures r.Err? ==> r.error == Uncoded
  {
    var name := TrimOf(Get(data, "name"));
    var email := if "email" in data && data["email"].Str? then Ok(NormalEmail(data["email"].s)) else Err(Uncoded);
    var phone := TrimOrNull(Get(data, "phone"));
    var password := if "password" in data && data["password"].Str? then Ok(env.hash(data["password"].s)) else Err(Uncoded);
    var role := if "role" !in data then Ok(DefaultRole)
                else if data["role"].Str? && RoleOf(data["role"].s).Some? then Ok(RoleOf(data["role"].s).value)
                else Err(Uncoded);
    if name.Err? || email.Err? || phone.Err? || password.Err? || role.Err? then Err(Uncoded)
    else Ok(User(name.value, email.value, phone.value, password.value, role.value, now))
  }

  /** A signup body the schema accepts always makes a row, and the row
      holds the normal forms of what was sent: the password only as its
      hash, a missing, null or blank phone as null, USER when no role is
      given. */
  lemma ValidatedNewUser(env: Env, body: Obj, now: int)
    requires UserCreate(env, body).Ok?
    ensures NewUser(env, UserCreate(env, body).value, now).Ok?
    ensures var u := NewUser(env, UserCreate(env, body).value, now).value;
      && "name" in body && body["name"].Str? && u.name == Trim(body["name"].s)
      && "email" in body && body["email"].Str? && u.email == NormalEmail(body["email"].s)
      && IsNormalEmail(u.email)
      && "password" in body && body["password"].Str? && u.password == env.hash(body["password"].s)
      && Some(u.role) == (if "role" in body && body["role"].Str? then RoleOf(body["role"].s) else Some(USER))
      && u.createdAt == now
    ensures NewUser(env, UserCreate(env, body).value, now).value.phone.None? <==>
      "phone" !in body || body["phone"].Null? || (body["phone"].Str? && AllSpace(body["phone"].s))
  {
    CreateData(env, body);
    var d := UserCreate(env, body).value;
    NewUserOf(env, d, now);
    assert Get(d, "phone") == Get(body, "phone");
    BlankPhoneIsNull(Get(body, "phone"));
  }

  /** `phone?.trim() || null` is null exactly for a missing, null or blank
      phone. */
  lemma BlankPhoneIsNull(o: Option<Value>)
    requires o.None? || o.value.Null? || o.value.Str?
    ensures TrimOrNull(o).Ok?
    ensures TrimOrNull(o).value.None? <==> o.None? || o.value.Null? || AllSpace(o.value.s)
  {
  }

  /** The row made from a body of the validated shape. */
  lemma NewUserOf(env: Env, d: Obj, now: int)
    requires "name" in d && d["name"].Str? && "email" in d && d["email"].Str?
    requires "password" in d && d["password"].Str?
    requires "role" in d ==> d["role"].Str? && RoleOf(d["role"].s).Some?
    requires "phone" in d ==> d["phone"].Null? || d["phone"].Str?
    ensures var u := NewUser(env, d, now);
      && u.Ok?
      && u.value.name == Trim(d["name"].s)
      && u.value.email == NormalEmail(d["email"].s) && IsNormalEmail(u.value.email)
      && u.value.password == env.hash(d["password"].s)
      && u.value.role == (if "role" in d then RoleOf(d["role"].s).value else USER)
      && TrimOrNull(Get(d, "phone")).Ok? && u.value.phone == TrimOrNull(Get(d, "phone")).value
      && u.value.createdAt == now
  {
    NormalEmailShape(d["email"].s);
    assert TrimOf(Get(d, "name")) == Ok(Trim(d["name"].s));
  }

  /** The validated signup body, field by field. */
  lemma CreateData(env: Env, body: Obj)
    requires UserCreate(env, body).Ok?
    ensures var d := UserCreate(env, body).value;
      && "name" in d && d["name"] == body["name"] && d["name"].Str?
      && "email" in d && d["email"] == body["email"] && d["email"].Str?
      && "password" in d && d["password"] == body["password"] && d["password"].Str?
      && ("role" in d <==> "role" in body)
      && ("role" in d ==> d["role"] == body["role"] && d["role"].Str? && RoleOf(d["role"].s).Some?)
      && ("phone" in d <==> "phone" in body)
      && ("phone" in d ==> d["phone"] == body["phone"] && (d["phone"].Null? || d["phone"].Str?))
  {
    UserCreateAccepts(env, body);
    UserCreateData(env, body);
  }

  /** The validated update body, field by field. */
  lemma UpdateData(env: Env, body: Obj)
    requires UserUpdate(env, body).Ok?
    ensures var d := UserUpdate(env, body).value;
      && ("name" in d <==> "name" in body) && ("name" in d ==> d["name"] == body["name"] && d["name"].Str?)
      && ("email" in d <==> "email" in body) && ("email" in d ==> d["email"] == body["email"] && d["email"].Str?)
      && ("password" in d <==> "password" in body)
      && ("password" in d ==> d["password"] == body["password"] && d["password"].Str?)
      && ("role" in d <==> "role" in body)
      && ("role" in d ==> d["role"] == body["role"] && d["role"].Str? && RoleOf(d["role"].s).Some?)
      && ("phone" in d <==> "phone" in body)
      && ("phone" in d ==> d["phone"] == body["phone"] && (d["phone"].Null? || d["phone"].Str?))
  {
    UserUpdateAccepts(env, body);
    UserUpdateData(env, body);
  }

  method Create(db: Store, req: Request, env: Env, newId: Id, now: int) returns (reply: Reply)
    requires newId !in db.users
    modifies db, req
    ensures db.clients == old(db.clients) && db.addresses == old(db.addresses) && db.vendors == old(db.vendors)
    ensures db.weddings == old(db.weddings) && db.tasks == old(db.tasks)
    ensures old(db.Valid()) ==> db.Valid()
    ensures old(db.RefsIntact()) ==> db.RefsIntact()
    ensures match UserCreate(env, old(req.body))
      case Err(fields) => reply == ValidationFailed(fields) && db.users == old(db.users)
      case Ok(data) =>
        var u := NewUser(env, data, now);
        && u.Ok?
        && (if EmailHeld(old(db.users), u.value.email, None) then
              reply == HandlePrismaError(UniqueViolation) && db.users == old(db.users)
            else
              db.users == old(db.users)[newId := u.value] && reply == Json(201, RowBody(UserView(newId, u.value))))
  {
    var body := req.body;
    var valid := ValidateBody(req, (b: Obj) => UserCreate(env, b));
    if valid.Halt? {
      return valid.reply;
    }
    ValidatedNewUser(env, body, now);
    var u := NewUser(env, req.body, now).value;
    if EmailHeld(db.users, u.email, None) {
      return HandlePrismaError(UniqueViolation);
    }
    if db.Valid() {
      WriteKeepsValid(db.users, newId, u);
    }
    db.PutUser(newId, u);
    reply := Json(201, RowBody(UserView(newId, u)));
  }

  // ---------------------------------------------------------------------------
  // PUT /users/:id

  /** The update object: only the fields the validated body holds. */
  datatype UserPatch = UserPatch(name: Option<string>, email: Option<string>,
                                 phone: Option<Option<string>>, role: Option<Role>,
                                 password: Option<string>)

  function UserChanges(env: Env, data: Obj): (r: Result<UserPatch, Failure>)
    ensures r.Err? ==> r.error == Uncoded
  {
    var name := if "name" in data then TrimOf(Get(data, "name")) else Ok("");
    var email := if "email" !in data then Ok(None)
                 else if data["email"].Str? then Ok(Some(NormalEmail(data["email"].s))) else Err(Uncoded);
    var phone := if "phone" in data then TrimIfTruthy(Get(data, "phone")) else Ok(None);
    var role := if "role" !in data then Ok(None)
                else if data["role"].Str? && RoleOf(data["role"].s).Some? then Ok(RoleOf(data["role"].s))
                else Err(Uncoded);
    var password := if "password" !in data then Ok(None)
                    else if data["password"].Str? then Ok(Some(env.hash(data["password"].s))) else Err(Uncoded);
    if name.Err? || email.Err? || phone.Err? || role.Err? || password.Err? then Err(Uncoded)
    else Ok(UserPatch(
      if "name" in data then Some(name.value) else None,
      email.value,
      if "phone" in data then Some(phone.value) else None,
      role.value,
      password.value))
  }

  function Patched(u: User, p: UserPatch): User {
    User(
      if p.name.Some? then p.name.value else u.name,
      if p.email.Some? then p.email.value else u.email,
      if p.phone.Some? then p.phone.value else u.phone,
      if p.password.Some? then p.password.value else u.password,
      if p.role.Some? then p.role.value else u.role,
      u.createdAt)
  }

  /** An update body the schema accepts always makes an update object: a
      field is in it exactly when the body holds it; the e-mail is
      normalised, a falsy phone becomes null, a password is stored only as
      its hash, and a role is taken as given, whoever asks. */
  lemma ValidatedChanges(env: Env, body: Obj)
    requires UserUpdate(env, body).Ok?
    ensures UserChanges(env, UserUpdate(env, body).value).Ok?
    ensures var p := UserChanges(env, UserUpdate(env, body).value).value;
      && (p.name.Some? <==> "name" in body) && (p.email.Some? <==> "email" in body)
      && (p.phone.Some? <==> "phone" in body) && (p.role.Some? <==> "role" in body)
      && (p.password.Some? <==> "password" in body)
      && ("name" in body ==> body["name"].Str? && p.name.value == Trim(body["name"].s))
      && ("email" in body ==> body["email"].Str? && p.email.value == NormalEmail(body["email"].s)
                              && IsNormalEmail(p.email.value))
      && ("phone" in body && !Truthy(Some(body["phone"])) ==> p.phone.value.None?)
      && ("phone" in body && Truthy(Some(body["phone"])) ==>
            body["phone"].Str? && p.phone.value == Some(Trim(body["phone"].s)))
      && ("role" in body ==> body["role"].Str? && p.role == RoleOf(body["role"].s))
      && ("password" in body ==> body["password"].Str? && p.password.value == env.hash(body["password"].s))
  {
    UpdateData(env, body);
    ChangesOf(env, UserUpdate(env, body).value);
  }

  /** The update object made from a body of the validated shape. */
  lemma ChangesOf(env: Env, d: Obj)
    requires "name" in d ==> d["name"].Str?
    requires "email" in d ==> d["email"].Str?
    requires "password" in d ==> d["password"].Str?
    requires "role" in d ==> d["role"].Str? && RoleOf(d["role"].s).Some?
    requires "phone" in d ==> d["phone"].Null? || d["phone"].Str?
    ensures UserChanges(env, d).Ok?
    ensures var p := UserChanges(env, d).value;
      && (p.name.Some? <==> "name" in d) && (p.email.Some? <==> "email" in d)
      && (p.phone.Some? <==> "phone" in d) && (p.role.Some? <==> "role" in d)
      && (p.password.Some? <==> "password" in d)
      && ("name" in d ==> p.name.value == Trim(d["name"].s))
      && ("email" in d ==> p.email.value == NormalEmail(d["email"].s) && IsNormalEmail(p.email.value))
      && ("phone" in d && !Truthy(Some(d["phone"])) ==> p.phone.value.None?)
      && ("phone" in d && Truthy(Some(d["phone"])) ==> p.phone.value == Some(Trim(d["phone"].s)))
      && ("role" in d ==> p.role == RoleOf(d["role"].s))
      && ("password" in d ==> p.password.value == env.hash(d["password"].s))
  {
    if "email" in d {
      NormalEmailShape(d["email"].s);
    }
  }

  /** A column the body does not mention keeps its value. */
  lemma PatchTouchesOnlySupplied(env: Env, u: User, body: Obj)
    requires UserUpdate(env, body).Ok?
    ensures UserChanges(env, UserUpdate(env, body).value).Ok?
    ensures var d := Patched(u, UserChanges(env, UserUpdate(env, body).value).value);
      && ("name" !in body ==> d.name == u.name) && ("email" !in body ==> d.email == u.email)
      && ("phone" !in body ==> d.phone == u.phone) && ("role" !in body ==> d.role == u.role)
      && ("password" !in body ==> d.password == u.password) && d.createdAt == u.createdAt
  {
    ValidatedChanges(env, body);
  }

  /** A blank phone is treated differently by the two writes: signup
      stores it as null, an update stores it as the empty string. */
  lemma BlankPhoneCreateVersusUpdate(env: Env, body: Obj, u: User, now: int)
    requires UserCreate(env, body).Ok? && UserUpdate(env, body).Ok?
    requires "phone" in body && body["phone"] == Str(" ")
    ensures NewUser(env, UserCreate(env, body).value, now).Ok?
    ensures NewUser(env, UserCreate(env, body).value, now).value.phone == None
    ensures UserChanges(env, UserUpdate(env, body).value).Ok?
    ensures Patched(u, UserChanges(env, UserUpdate(env, body).value).value).phone == Some("")
  {
    BlankPhoneAtCreate(env, body, now);
    BlankPhoneOnUpdate(env, body, u);
  }

  lemma BlankPhoneAtCreate(env: Env, body: Obj, now: int)
    requires UserCreate(env, body).Ok?
    requires "phone" in body && body["phone"] == Str(" ")
    ensures NewUser(env, UserCreate(env, body).value, now).Ok?
    ensures NewUser(env, UserCreate(env, body).value, now).value.phone == None
  {
    assert AllSpace(" ");
    ValidatedNewUser(env, body, now);
  }

  lemma BlankPhoneOnUpdate(env: Env, body: Obj, u: User)
    requires UserUpdate(env, body).Ok?
    requires "phone" in body && body["phone"] == Str(" ")
    ensures UserChanges(env, UserUpdate(env, body).value).Ok?
    ensures Patched(u, UserChanges(env, UserUpdate(env, body).value).value).phone == Some("")
  {
    assert Trim(" ") == "" by {
      TrimCharacterised(" ");
    }
    ValidatedChanges(env, body);
  }

  method Update(db: Store, req: Request, env: Env, id: Id) returns (reply: Reply)
    modifies db, req
    ensures db.clients == old(db.clients) && db.addresses == old(db.addresses) && db.vendors == old(db.vendors)
    ensures db.weddings == old(db.weddings) && db.tasks == old(db.tasks)
    ensures old(db.Valid()) ==> db.Valid()
    ensures old(db.RefsIntact()) ==> db.RefsIntact()
    ensures match Authenticate(req.authorization, req.cookieToken, env)
      case Rejected(r) => reply == r && db.users == old(db.users)
      case Authenticated(_) =>
        match UserUpdate(env, old(req.body))
        case Err(fields) => reply == ValidationFailed(fields) && db.users == old(db.users)
        case Ok(data) =>
          var p := UserChanges(env, data);
          && p.Ok?
          && (if id !in old(db.users) then reply == NotFound && db.users == old(db.users)
              else if p.value.email.Some? && EmailHeld(old(db.users), p.value.email.value, Some(id)) then
                reply == HandlePrismaError(UniqueViolation) && db.users == old(db.users)
              else
                var u := Patched(old(db.users)[id], p.value);
                db.users == old(db.users)[id := u] && reply == Json(200, RowBody(UserView(id, u))))
  {
    var step := RequireAuth.RequireAuth(req, env);
    if step.Halt? {
      return step.reply;
    }
    var body := req.body;
    var valid := ValidateBody(req, (b: Obj) => UserUpdate(env, b));
    if valid.Halt? {
      return valid.reply;
    }
    ValidatedChanges(env, body);
    var p := UserChanges(env, req.body).value;
    if id !in db.users {
      return HandlePrismaError(RecordMissing);
    }
    if p.email.Some? && EmailHeld(db.users, p.email.value, Some(id)) {
      return HandlePrismaError(UniqueViolation);
    }
    var u := Patched(db.users[id], p);
    if db.Valid() {
      WriteKeepsValid(db.users, id, u);
    }
    db.PutUser(id, u);
    reply := Json(200, RowBody(UserView(id, u)));
  }

  // ---------------------------------------------------------------------------
  // DELETE /users/:id

  method Delete(db: Store, req: Request, env: Env, id: Id) returns (reply: Reply)
    modifies db, req
    ensures db.clients == old(db.clients) && db.addresses == old(db.addresses) && db.vendors == old(db.vendors)
    ensures db.weddings == old(db.weddings) && db.tasks == old(db.tasks)
    ensures old(db.Valid()) ==> db.Valid()
    ensures match Authenticate(req.authorization, req.cookieToken, env)
      case Rejected(r) => reply == r && db.users == old(db.users)
      case Authenticated(user) =>
        match Gate(StaffOnly, Some(user))
        case Halt(r) => reply == r && db.users == old(db.users)
        case Next =>
          if id !in old(db.users) then reply == NotFound && db.users == old(db.users)
          else db.users == old(db.users) - {id} && reply == Json(200, MessageBody("User deleted"))
  {
    var step := RequireAuth.RequireAuth(req, env);
    if step.Halt? {
      return step.reply;
    }
    var gate := Gate(StaffOnly, req.user);
    if gate.Halt? {
      return gate.reply;
    }
    if id !in db.users {
      return HandlePrismaError(RecordMissing);
    }
    db.users := db.users - {id};
    reply := Json(200, MessageBody("User deleted"));
  }
}
