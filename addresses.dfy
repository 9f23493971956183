/** The `/addresses` router: list by city, state and zip, fetch, create
    with all four parts required, partial update, and delete. */
module Addresses {
  import opened Js
  import opened Entities
  import opened Http
  import opened Db
  import opened Utils
  import opened Routes
  import opened RequireAuth
  import opened RequireRole

  /** The form the handlers store: every part trimmed. */
  predicate AddressNormal(a: Address) {
    IsTrimmed(a.street) && IsTrimmed(a.city) && IsTrimmed(a.state) && IsTrimmed(a.zip)
  }

  ghost predicate AllAddressesNormal(addresses: map<Id, Address>) {
    forall k :: k in addresses ==> AddressNormal(addresses[k])
  }

  // ---------------------------------------------------------------------------
  // GET /addresses

  /** `city` and `state` match the whole column ignoring case; `zip` matches
      it exactly. */
  datatype AddressWhere = AddressWhere(city: Option<string>, state: Option<string>, zip: Option<string>)

  function AddressWhereOf(q: Obj): Result<AddressWhere, Failure> {
    var city := FilterArg(Get(q, "city"));
    var state := FilterArg(Get(q, "state"));
    var zip := FilterArg(Get(q, "zip"));
    if city.Err? then Err(city.error)
    else if state.Err? then Err(state.error)
    else if zip.Err? then Err(zip.error)
    else Ok(AddressWhere(city.value, state.value, zip.value))
  }

  predicate AddressMatches(w: AddressWhere, a: Address) {
    && (w.city.Some? ==> EqualsInsensitive(a.city, w.city.value))
    && (w.state.Some? ==> EqualsInsensitive(a.state, w.state.value))
    && (w.zip.Some? ==> a.zip == w.zip.value)
  }

  function AddressFilter(w: AddressWhere): Address -> bool {
    a => AddressMatches(w, a)
  }

  /** The list has no `orderBy`: any order of the kept rows may come back. */
  const Unordered: (Address, Address) -> bool := (a: Address, b: Address) => true

  /** City and state ignore case, and the zip does not. */
  lemma CityAndStateIgnoreCase(w: AddressWhere, a: Address)
    ensures AddressMatches(w, a) ==
      AddressMatches(AddressWhere(
        if w.city.Some? then Some(Lower(w.city.value)) else None,
        if w.state.Some? then Some(Lower(w.state.value)) else None,
        w.zip), a)
  {
    if w.city.Some? { LowerIdempotent(w.city.value); }
    if w.state.Some? { LowerIdempotent(w.state.value); }
  }

  lemma ZipIsExact(a: Address, zip: string)
    ensures AddressMatches(AddressWhere(None, None, Some(zip)), a) <==> a.zip == zip
  {
  }

  method List(db: Store, req: Request) returns (reply: Reply)
    ensures var q := req.Query();
      && (AddressWhereOf(q).Err? || PageOf(q).Err? ==> reply == ServerError)
      && (AddressWhereOf(q).Ok? && PageOf(q).Ok? ==>
            ListedAs(reply, db.addresses, AddressFilter(AddressWhereOf(q).value), Unordered, PageOf(q).value, AddressRow))
  {
    var q := req.Query();
    var where := AddressWhereOf(q);
    var page := PageOf(q);
    if where.Err? || page.Err? {
      return ServerError;
    }
    reply := ListRows(db.addresses, AddressFilter(where.value), Unordered, page.value, AddressRow);
  }

  // ---------------------------------------------------------------------------
  // GET /addresses/:id

  method Show(db: Store, id: Id) returns (reply: Reply)
    ensures id in db.addresses ==> reply == Json(200, RowBody(AddressRow(id, db.addresses[id])))
    ensures id !in db.addresses ==> reply == Json(404, ErrorBody("Address not found"))
  {
    if id !in db.addresses {
      return Json(404, ErrorBody("Address not found"));
    }
    reply := Json(200, RowBody(AddressRow(id, db.addresses[id])));
  }

  // ---------------------------------------------------------------------------
  // POST /addresses

  const PartsRequired: Reply := Json(400, ErrorBody("Street, city, state and zip are required"))

  /** The four parts are all truthy. */
  predicate HasAllParts(body: Obj) {
    Truthy(Get(body, "street")) && Truthy(Get(body, "city"))
    && Truthy(Get(body, "state")) && Truthy(Get(body, "zip"))
  }

  /** The row `prisma.address.create` stores: each part trimmed; `.trim()`
      on a part that is not a string throws. */
  function NewAddress(body: Obj, now: int): (r: Result<Address, Failure>)
    ensures r.Ok? <==> && Get(body, "street").Some? && body["street"].Str?
                       && Get(body, "city").Some? && body["city"].Str?
                       && Get(body, "state").Some? && body["state"].Str?
                       && Get(body, "zip").Some? && body["zip"].Str?
    ensures r.Err? ==> r.error == Uncoded
  {
    var street := TrimOf(Get(body, "street"));
    var city := TrimOf(Get(body, "city"));
    var state := TrimOf(Get(body, "state"));
    var zip := TrimOf(Get(body, "zip"));
    if street.Err? then Err(street.error)
    else if city.Err? then Err(city.error)
    else if state.Err? then Err(state.error)
    else if zip.Err? then Err(zip.error)
    else Ok(Address(street.value, city.value, state.value, zip.value, now))
  }

  /** Each stored part is the trimmed part of the body. */
  lemma NewAddressParts(body: Obj, now: int)
    requires NewAddress(body, now).Ok?
    ensures var a := NewAddress(body, now).value;
      && AddressNormal(a) && a.createdAt == now
      && a.street == Trim(body["street"].s) && a.city == Trim(body["city"].s)
      && a.state == Trim(body["state"].s) && a.zip == Trim(body["zip"].s)
  {
    TrimIsTrimmed(body["street"].s);
    TrimIsTrimmed(body["city"].s);
    TrimIsTrimmed(body["state"].s);
    TrimIsTrimmed(body["zip"].s);
  }

  /** The presence check looks at the parts before they are trimmed: a
      street of spaces passes it and is stored as the empty string. */
  lemma BlankPartStoredEmpty(body: Obj, now: int)
    requires HasAllParts(body) && NewAddress(body, now).Ok?
    requires AllSpace(body["street"].s)
    ensures NewAddress(body, now).value.street == ""
  {
    TrimCharacterised(body["street"].s);
  }

  method Create(db: Store, req: Request, env: Env, newId: Id, now: int) returns (reply: Reply)
    requires newId !in db.addresses
    modifies db, req
    ensures db.users == old(db.users) && db.clients == old(db.clients) && db.vendors == old(db.vendors)
    ensures db.weddings == old(db.weddings) && db.tasks == old(db.tasks)
    ensures old(db.RefsIntact()) ==> db.RefsIntact()
    ensures match Authenticate(req.authorization, req.cookieToken, env)
      case Rejected(r) => reply == r && db.addresses == old(db.addresses)
      case Authenticated(_) =>
        var body := old(req.body);
        if !HasAllParts(body) then
          reply == PartsRequired && db.addresses == old(db.addresses)
        else match NewAddress(body, now)
          case Err(_) => reply == ServerError && db.addresses == old(db.addresses)
          case Ok(a) =>
            db.addresses == old(db.addresses)[newId := a] && reply == Json(201, RowBody(AddressRow(newId, a)))
  {
    var step := RequireAuth.RequireAuth(req, env);
    if step.Halt? {
      return step.reply;
    }
    var body := req.body;
    if !HasAllParts(body) {
      return PartsRequired;
    }
    var data := NewAddress(body, now);
    if data.Err? {
      return HandlePrismaError(data.error);
    }
    db.PutAddress(newId, data.value);
    reply := Json(201, RowBody(AddressRow(newId, data.value)));
  }

  /** Creating an address keeps every stored address in normal form. */
  lemma CreateKeepsNormal(addresses: map<Id, Address>, k: Id, body: Obj, now: int)
    requires NewAddress(body, now).Ok? && AllAddressesNormal(addresses)
    ensures AllAddressesNormal(addresses[k := NewAddress(body, now).value])
  {
    NewAddressParts(body, now);
  }

  // ---------------------------------------------------------------------------
  // PUT /addresses/:id

  /** The update object: each part the body gives, trimmed. */
  datatype AddressPatch = AddressPatch(street: Option<string>, city: Option<string>,
                                       state: Option<string>, zip: Option<string>)

  /** `if (v !== undefined) update.v = v.trim()`: a given part that is not a
      string (`null` included) throws. */
  function PartChange(body: Obj, key: string): (r: Result<Option<string>, Failure>)
    ensures key !in body ==> r == Ok(None)
    ensures key in body ==> (r.Ok? <==> body[key].Str?)
    ensures key in body && r.Ok? ==> r.value == Some(Trim(body[key].s))
    ensures r.Err? ==> r.error == Uncoded
  {
    if key !in body then Ok(None)
    else
      var t := TrimOf(Get(body, key));
      if t.Err? then Err(t.error) else Ok(Some(t.value))
  }

  function AddressChanges(body: Obj): (r: Result<AddressPatch, Failure>)
    ensures r.Ok? <==> PartChange(body, "street").Ok? && PartChange(body, "city").Ok?
                       && PartChange(body, "state").Ok? && PartChange(body, "zip").Ok?
    ensures r.Err? ==> r.error == Uncoded
  {
    var street := PartChange(body, "street");
    var city := PartChange(body, "city");
    var state := PartChange(body, "state");
    var zip := PartChange(body, "zip");
    if street.Err? then Err(street.error)
    else if city.Err? then Err(city.error)
    else if state.Err? then Err(state.error)
    else if zip.Err? then Err(zip.error)
    else Ok(AddressPatch(street.value, city.value, state.value, zip.value))
  }

  function Patched(a: Address, p: AddressPatch): Address {
    Address(
      if p.street.Some? then p.street.value else a.street,
      if p.city.Some? then p.city.value else a.city,
      if p.state.Some? then p.state.value else a.state,
      if p.zip.Some? then p.zip.value else a.zip,
      a.createdAt)
  }

  /** Applying the same update twice is applying it once. */
  lemma PatchIdempotent(a: Address, p: AddressPatch)
    ensures Patched(Patched(a, p), p) == Patched(a, p)
  {
  }

  /** A part the body does not mention keeps its value; a part it gives is
      replaced by its trimmed value. */
  lemma PatchTouchesOnlySupplied(a: Address, body: Obj)
    requires AddressChanges(body).Ok?
    ensures var d := Patched(a, AddressChanges(body).value);
      && d.street == (if "street" in body then Trim(body["street"].s) else a.street)
      && d.city == (if "city" in body then Trim(body["city"].s) else a.city)
      && d.state == (if "state" in body then Trim(body["state"].s) else a.state)
      && d.zip == (if "zip" in body then Trim(body["zip"].s) else a.zip)
      && d.createdAt == a.createdAt
  {
  }

  lemma UpdateKeepsNormal(addresses: map<Id, Address>, id: Id, body: Obj)
    requires id in addresses && AddressChanges(body).Ok? && AllAddressesNormal(addresses)
    ensures AllAddressesNormal(addresses[id := Patched(addresses[id], AddressChanges(body).value)])
  {
    if "street" in body { TrimIsTrimmed(body["street"].s); }
    if "city" in body { TrimIsTrimmed(body["city"].s); }
    if "state" in body { TrimIsTrimmed(body["state"].s); }
    if "zip" in body { TrimIsTrimmed(body["zip"].s); }
  }

  method Update(db: Store, req: Request, env: Env, id: Id) returns (reply: Reply)
    modifies db, req
    ensures db.users == old(db.users) && db.clients == old(db.clients) && db.vendors == old(db.vendors)
    ensures db.weddings == old(db.weddings) && db.tasks == old(db.tasks)
    ensures old(db.RefsIntact()) ==> db.RefsIntact()
    ensures match Authenticate(req.authorization, req.cookieToken, env)
      case Rejected(r) => reply == r && db.addresses == old(db.addresses)
      case Authenticated(_) =>
        match AddressChanges(old(req.body))
        case Err(_) => reply == ServerError && db.addresses == old(db.addresses)
        case Ok(p) =>
          if id !in old(db.addresses) then reply == NotFound && db.addresses == old(db.addresses)
          else
            var a := Patched(old(db.addresses)[id], p);
            db.addresses == old(db.addresses)[id := a] && reply == Json(200, RowBody(AddressRow(id, a)))
  {
    var step := RequireAuth.RequireAuth(req, env);
    if step.Halt? {
      return step.reply;
    }
    var changes := AddressChanges(req.body);
    if changes.Err? {
      return HandlePrismaError(changes.error);
    }
    if id !in db.addresses {
      return HandlePrismaError(RecordMissing);
    }
    var a := Patched(db.addresses[id], changes.value);
    db.PutAddress(id, a);
    reply := Json(200, RowBody(AddressRow(id, a)));
  }

  // ---------------------------------------------------------------------------
  // DELETE /addresses/:id

  method Delete(db: Store, req: Request, env: Env, id: Id) returns (reply: Reply)
    modifies db, req
    ensures db.users == old(db.users) && db.clients == old(db.clients) && db.vendors == old(db.vendors)
    ensures db.weddings == old(db.weddings) && db.tasks == old(db.tasks)
    ensures match Authenticate(req.authorization, req.cookieToken, env)
      case Rejected(r) => reply == r && db.addresses == old(db.addresses)
      case Authenticated(user) =>
        match Gate(StaffOnly, Some(user))
        case Halt(r) => reply == r && db.addresses == old(db.addresses)
        case Next =>
          if id !in old(db.addresses) then reply == NotFound && db.addresses == old(db.addresses)
          else db.addresses == old(db.addresses) - {id} && reply == Json(200, MessageBody("Address deleted"))
  {
    var step := RequireAuth.RequireAuth(req, env);
    if step.Halt? {
      return step.reply;
    }
    var gate := Gate(StaffOnly, req.user);
    if gate.Halt? {
      return gate.reply;
    }
    if id !in db.addresses {
      return HandlePrismaError(RecordMissing);
    }
    db.addresses := db.addresses - {id};
    reply := Json(200, MessageBody("Address deleted"));
  }
}
