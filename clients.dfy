/** The `/clients` router: list, fetch, create, update, and a delete that
    is refused while the client is a spouse in a wedding still to come. */
module Clients {
  import opened Js
  import opened Entities
  import opened Http
  import opened Db
  import opened Utils
  import opened Routes
  import opened RequireAuth
  import opened RequireRole

  /** The normal form the handlers give a client's columns: a trimmed name,
      an e-mail in lower case, trimmed and non-empty, a trimmed phone. */
  predicate ClientNormal(c: Client) {
    && IsTrimmed(c.name)
    && (c.email.Some? ==> c.email.value != "" && IsNormalEmail(c.email.value))
    && (c.phone.Some? ==> IsTrimmed(c.phone.value))
  }

  ghost predicate AllClientsNormal(clients: map<Id, Client>) {
    forall k :: k in clients ==> ClientNormal(clients[k])
  }

  // ---------------------------------------------------------------------------
  // GET /clients

  /** The `where` of the list: `search` matches the name or the e-mail,
      `email` the whole e-mail, both ignoring case. */
  datatype ClientWhere = ClientWhere(search: Option<string>, email: Option<string>)

  function ClientWhereOf(q: Obj): Result<ClientWhere, Failure> {
    var search := FilterArg(Get(q, "search"));
    var email := FilterArg(Get(q, "email"));
    if search.Err? then Err(search.error)
    else if email.Err? then Err(email.error)
    else Ok(ClientWhere(search.value, email.value))
  }

  predicate ClientMatches(w: ClientWhere, c: Client) {
    && (w.search.Some? ==>
          ContainsInsensitive(c.name, w.search.value)
          || (c.email.Some? && ContainsInsensitive(c.email.value, w.search.value)))
    && (w.email.Some? ==> c.email.Some? && EqualsInsensitive(c.email.value, w.email.value))
  }

  function ClientFilter(w: ClientWhere): Client -> bool {
    c => ClientMatches(w, c)
  }

  /** `orderBy: { createdAt: 'desc' }` */
  const NewestFirst: (Client, Client) -> bool := (a: Client, b: Client) => a.createdAt >= b.createdAt

  lemma NewestFirstIsOrder()
    ensures TotalPreorder(NewestFirst)
  {
  }

  /** Both filters ignore case: searching for a lower-cased term finds the
      same clients. */
  lemma FiltersIgnoreCase(w: ClientWhere, c: Client)
    ensures ClientMatches(w, c) ==
      ClientMatches(ClientWhere(
        if w.search.Some? then Some(Lower(w.search.value)) else None,
        if w.email.Some? then Some(Lower(w.email.value)) else None), c)
  {
    if w.search.Some? { LowerIdempotent(w.search.value); }
    if w.email.Some? { LowerIdempotent(w.email.value); }
  }

  method List(db: Store, req: Request) returns (reply: Reply)
    ensures var q := req.Query();
      && (ClientWhereOf(q).Err? || PageOf(q).Err? ==> reply == ServerError)
      && (ClientWhereOf(q).Ok? && PageOf(q).Ok? ==>
            ListedAs(reply, db.clients, ClientFilter(ClientWhereOf(q).value), NewestFirst, PageOf(q).value, ClientRow))
  {
    var q := req.Query();
    var where := ClientWhereOf(q);
    var page := PageOf(q);
    if where.Err? || page.Err? {
      return ServerError;
    }
    NewestFirstIsOrder();
    reply := ListRows(db.clients, ClientFilter(where.value), NewestFirst, page.value, ClientRow);
  }

  // ---------------------------------------------------------------------------
  // GET /clients/:id

  method Show(db: Store, id: Id) returns (reply: Reply)
    ensures id in db.clients ==> reply == Json(200, RowBody(ClientRow(id, db.clients[id])))
    ensures id !in db.clients ==> reply == Json(404, ErrorBody("Client not found"))
  {
    if id !in db.clients {
      return Json(404, ErrorBody("Client not found"));
    }
    reply := Json(200, RowBody(ClientRow(id, db.clients[id])));
  }

  // ---------------------------------------------------------------------------
  // POST /clients

  /** The row `prisma.client.create` stores: the name trimmed, the e-mail
      normalised, a missing or blank e-mail or phone as null, a falsy
      `notes` as null. `.trim()` on a name that is not a string, and
      `?.toLowerCase()` or `?.trim()` on a value that is neither a string
      nor null, throw. */
  function NewClient(body: Obj, now: int): (r: Result<Client, Failure>)
    ensures r.Ok? <==> && "name" in body && body["name"].Str?
                       && ("email" in body ==> body["email"].Null? || body["email"].Str?)
                       && ("phone" in body ==> body["phone"].Null? || body["phone"].Str?)
    ensures r.Err? ==> r.error == Uncoded
  {
    var name := TrimOf(Get(body, "name"));
    var email := EmailOrNull(Get(body, "email"));
    var phone := TrimOrNull(Get(body, "phone"));
    if name.Err? then Err(name.error)
    else if email.Err? then Err(email.error)
    else if phone.Err? then Err(phone.error)
    else Ok(Client(name.value, email.value, phone.value, OrNull(Get(body, "notes")), now))
  }

  /** What a created client holds: its columns in normal form, the name
      trimmed, a blank or absent e-mail or phone as null, `notes` only when
      truthy, and the creation time. */
  lemma NewClientColumns(body: Obj, now: int)
    requires NewClient(body, now).Ok?
    ensures var c := NewClient(body, now).value;
      && c.createdAt == now
      && c.name == Trim(body["name"].s)
      && (c.email.None? <==> "email" !in body || body["email"].Null? || AllSpace(body["email"].s))
      && (c.phone.None? <==> "phone" !in body || body["phone"].Null? || AllSpace(body["phone"].s))
      && c.notes == OrNull(Get(body, "notes"))
  {
    TrimIdempotent(body["name"].s);
  }

  lemma NewClientNormal(body: Obj, now: int)
    requires NewClient(body, now).Ok?
    ensures ClientNormal(NewClient(body, now).value)
  {
    TrimIsTrimmed(body["name"].s);
  }

  /** Creating a client keeps every stored client in normal form. */
  lemma CreateKeepsNormal(clients: map<Id, Client>, k: Id, body: Obj, now: int)
    requires NewClient(body, now).Ok? && AllClientsNormal(clients)
    ensures AllClientsNormal(clients[k := NewClient(body, now).value])
  {
    NewClientNormal(body, now);
  }

  /** The columns the create reply selects. */
  const CreatedView: set<string> := {"id", "name", "email", "phone", "createdAt"}

  method Create(db: Store, req: Request, env: Env, newId: Id, now: int) returns (reply: Reply)
    requires newId !in db.clients
    modifies db, req
    ensures db.users == old(db.users) && db.addresses == old(db.addresses) && db.vendors == old(db.vendors)
    ensures db.weddings == old(db.weddings) && db.tasks == old(db.tasks)
    ensures old(db.RefsIntact()) ==> db.RefsIntact()
    ensures match Authenticate(req.authorization, req.cookieToken, env)
      case Rejected(r) => reply == r && db.clients == old(db.clients)
      case Authenticated(_) =>
        var body := old(req.body);
        if !Truthy(Get(body, "name")) then
          reply == Json(400, ErrorBody("Name is required")) && db.clients == old(db.clients)
        else match NewClient(body, now)
          case Err(_) => reply == ServerError && db.clients == old(db.clients)
          case Ok(c) =>
            db.clients == old(db.clients)[newId := c] && reply == Json(201, RowBody(Select(ClientRow(newId, c), CreatedView)))
  {
    var step := RequireAuth.RequireAuth(req, env);
    if step.Halt? {
      return step.reply;
    }
    var body := req.body;
    if !Truthy(Get(body, "name")) {
      return Json(400, ErrorBody("Name is required"));
    }
    var data := NewClient(body, now);
    if data.Err? {
      return HandlePrismaError(data.error);
    }
    db.PutClient(newId, data.value);
    reply := Json(201, RowBody(Select(ClientRow(newId, data.value), CreatedView)));
  }

  // ---------------------------------------------------------------------------
  // PUT /clients/:id

  /** The update object: a field the body does not mention is left out and
      keeps its stored value. */
  datatype ClientPatch = ClientPatch(name: Option<string>, email: Option<Option<string>>,
                                     phone: Option<Option<string>>, notes: Option<Value>)

  /** The update object the handler builds. The name is trimmed, the
      e-mail normalised (blank or null clears it), the phone trimmed when
      truthy and cleared otherwise, `notes` copied. */
  function ClientChanges(body: Obj): (r: Result<ClientPatch, Failure>)
    ensures r.Ok? <==>
      && ("name" in body ==> body["name"].Str?)
      && ("email" in body ==> body["email"].Null? || body["email"].Str?)
      && ("phone" in body && Truthy(Some(body["phone"])) ==> body["phone"].Str?)
    ensures r.Err? ==> r.error == Uncoded
    ensures r.Ok? ==> (r.value.name.Some? <==> "name" in body) && (r.value.email.Some? <==> "email" in body)
    ensures r.Ok? ==> (r.value.phone.Some? <==> "phone" in body) && (r.value.notes.Some? <==> "notes" in body)
    ensures r.Ok? && "notes" in body ==> r.value.notes == Some(body["notes"])
  {
    var name := if "name" in body then TrimOf(Get(body, "name")) else Ok("");
    var email := if "email" in body then EmailOrNull(Get(body, "email")) else Ok(None);
    var phone := if "phone" in body then TrimIfTruthy(Get(body, "phone")) else Ok(None);
    if name.Err? then Err(name.error)
    else if email.Err? then Err(email.error)
    else if phone.Err? then Err(phone.error)
    else Ok(ClientPatch(
      if "name" in body then Some(name.value) else None,
      if "email" in body then Some(email.value) else None,
      if "phone" in body then Some(phone.value) else None,
      if "notes" in body then Some(body["notes"]) else None))
  }

  /** `prisma.client.update(...)` on an existing row. */
  function Patched(c: Client, p: ClientPatch): Client {
    Client(
      if p.name.Some? then p.name.value else c.name,
      if p.email.Some? then p.email.value else c.email,
      if p.phone.Some? then p.phone.value else c.phone,
      if p.notes.Some? then p.notes.value else c.notes,
      c.createdAt)
  }

  /** Applying the same update twice is applying it once. */
  lemma PatchIdempotent(c: Client, p: ClientPatch)
    ensures Patched(Patched(c, p), p) == Patched(c, p)
  {
  }

  /** A column the body does not mention keeps its value; the creation
      time never changes. */
  lemma PatchTouchesOnlySupplied(c: Client, body: Obj)
    requires ClientChanges(body).Ok?
    ensures var d := Patched(c, ClientChanges(body).value);
      && ("name" !in body ==> d.name == c.name) && ("email" !in body ==> d.email == c.email)
      && ("phone" !in body ==> d.phone == c.phone) && ("notes" !in body ==> d.notes == c.notes)
      && d.createdAt == c.createdAt
  {
  }

  /** An update keeps a client in normal form. */
  lemma PatchKeepsNormal(c: Client, body: Obj)
    requires ClientNormal(c) && ClientChanges(body).Ok?
    ensures ClientNormal(Patched(c, ClientChanges(body).value))
  {
    if "name" in body { TrimIsTrimmed(body["name"].s); }
    if "phone" in body && Truthy(Some(body["phone"])) { TrimIsTrimmed(body["phone"].s); }
  }

  /** Updating a client keeps every stored client in normal form. */
  lemma UpdateKeepsNormal(clients: map<Id, Client>, id: Id, body: Obj)
    requires id in clients && ClientChanges(body).Ok? && AllClientsNormal(clients)
    ensures AllClientsNormal(clients[id := Patched(clients[id], ClientChanges(body).value)])
  {
    PatchKeepsNormal(clients[id], body);
  }

  method Update(db: Store, req: Request, env: Env, id: Id) returns (reply: Reply)
    modifies db, req
    ensures db.users == old(db.users) && db.addresses == old(db.addresses) && db.vendors == old(db.vendors)
    ensures db.weddings == old(db.weddings) && db.tasks == old(db.tasks)
    ensures old(db.RefsIntact()) ==> db.RefsIntact()
    ensures match Authenticate(req.authorization, req.cookieToken, env)
      case Rejected(r) => reply == r && db.clients == old(db.clients)
      case Authenticated(_) =>
        match ClientChanges(old(req.body))
        case Err(_) => reply == ServerError && db.clients == old(db.clients)
        case Ok(p) =>
          if id !in old(db.clients) then reply == NotFound && db.clients == old(db.clients)
          else
            var c := Patched(old(db.clients)[id], p);
            db.clients == old(db.clients)[id := c] && reply == Json(200, RowBody(ClientRow(id, c)))
  {
    var step := RequireAuth.RequireAuth(req, env);
    if step.Halt? {
      return step.reply;
    }
    var changes := ClientChanges(req.body);
    if changes.Err? {
      return HandlePrismaError(changes.error);
    }
    if id !in db.clients {
      return HandlePrismaError(RecordMissing);
    }
    var c := Patched(db.clients[id], changes.value);
    db.PutClient(id, c);
    reply := Json(200, RowBody(ClientRow(id, c)));
  }

  // ---------------------------------------------------------------------------
  // DELETE /clients/:id

  /** `prisma.wedding.findFirst` finds a wedding on or after `now` with the
      client as either spouse. */
  predicate HasFutureWedding(weddings: map<Id, Wedding>, id: Id, now: int) {
    exists k :: k in weddings && IsSpouse(weddings[k], id) && weddings[k].date >= now
  }

  predicate IsSpouse(w: Wedding, id: Id) {
    w.spouse1Id == Some(id) || w.spouse2Id == Some(id)
  }

  /** The schema's `onDelete: SetNull` on both spouse relations. */
  function Unlinked(w: Wedding, id: Id): (u: Wedding)
    ensures !IsSpouse(u, id)
    ensures u.date == w.date && u.locationId == w.locationId && u.createdAt == w.createdAt
    ensures !IsSpouse(w, id) ==> u == w
  {
    w.(spouse1Id := if w.spouse1Id == Some(id) then None else w.spouse1Id,
       spouse2Id := if w.spouse2Id == Some(id) then None else w.spouse2Id)
  }

  const FutureWeddings: Reply := Json(400, ErrorBody("Cannot delete client with future weddings"))

  method Delete(db: Store, req: Request, env: Env, id: Id, now: int) returns (reply: Reply)
    modifies db, req
    ensures db.users == old(db.users) && db.addresses == old(db.addresses) && db.vendors == old(db.vendors)
    ensures db.tasks == old(db.tasks)
    ensures old(db.RefsIntact()) ==> db.RefsIntact()
    ensures match Authenticate(req.authorization, req.cookieToken, env)
      case Rejected(r) => reply == r && db.clients == old(db.clients) && db.weddings == old(db.weddings)
      case Authenticated(user) =>
        match Gate(StaffOnly, Some(user))
        case Halt(r) => reply == r && db.clients == old(db.clients) && db.weddings == old(db.weddings)
        case Next =>
          if HasFutureWedding(old(db.weddings), id, now) then
            reply == FutureWeddings && db.clients == old(db.clients) && db.weddings == old(db.weddings)
          else if id !in old(db.clients) then
            reply == NotFound && db.clients == old(db.clients) && db.weddings == old(db.weddings)
          else
            && db.clients == old(db.clients) - {id}
            && db.weddings == (map k | k in old(db.weddings) :: Unlinked(old(db.weddings)[k], id))
            && reply == Json(200, ClientDeletedBody("Client deleted",
                                   Select(ClientRow(id, old(db.clients)[id]), {"id", "name"})))
  {
    var step := RequireAuth.RequireAuth(req, env);
    if step.Halt? {
      return step.reply;
    }
    var gate := Gate(StaffOnly, req.user);
    if gate.Halt? {
      return gate.reply;
    }
    if exists k :: k in db.weddings && IsSpouse(db.weddings[k], id) && db.weddings[k].date >= now {
      return FutureWeddings;
    }
    if id !in db.clients {
      return HandlePrismaError(RecordMissing);
    }
    var gone := db.clients[id];
    var unlinked := map k | k in db.weddings :: Unlinked(db.weddings[k], id);
    UnlinkKeepsIntact(db.vendors, db.weddings, db.tasks, db.addresses, db.clients, db.users, id);
    db.clients := db.clients - {id};
    db.weddings := unlinked;
    reply := Json(200, ClientDeletedBody("Client deleted", Select(ClientRow(id, gone), {"id", "name"})));
  }

  /** Deleting a client and clearing the spouse columns that named it keeps
      every reference intact. */
  lemma UnlinkKeepsIntact(v: map<Id, Vendor>, w: map<Id, Wedding>, t: map<Id, Task>,
                          a: map<Id, Address>, c: map<Id, Client>, u: map<Id, User>, id: Id)
    ensures Intact(v, w, t, a, c, u) ==>
      Intact(v, map k | k in w :: Unlinked(w[k], id), t, a, c - {id}, u)
  {
    var w' := map k | k in w :: Unlinked(w[k], id);
    assert w'.Keys == w.Keys;
    if Intact(v, w, t, a, c, u) {
      forall k | k in w' ensures WeddingRefsOk(w'[k], a, c - {id}) {
        assert WeddingRefsOk(w[k], a, c);
      }
    }
  }

  /** Once a client is deleted no wedding names it as a spouse, and every
      wedding that named it was in the past. */
  lemma DeleteLeavesNoSpouse(weddings: map<Id, Wedding>, id: Id, now: int)
    requires !HasFutureWedding(weddings, id, now)
    ensures forall k :: k in weddings && IsSpouse(weddings[k], id) ==> weddings[k].date < now
    ensures var after := map k | k in weddings :: Unlinked(weddings[k], id);
      forall k :: k in after ==> !IsSpouse(after[k], id)
  {
  }

  /** A wedding held at the very instant of the request still blocks the
      delete. */
  lemma WeddingNowBlocks(weddings: map<Id, Wedding>, k: Id, id: Id, now: int)
    requires k in weddings && weddings[k].spouse2Id == Some(id) && weddings[k].date == now
    ensures HasFutureWedding(weddings, id, now)
  {
  }
}
