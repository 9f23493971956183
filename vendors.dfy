/** The `/vendors` router: list by name, fetch, create and update with the
    address reference checked, and delete. */
module Vendors {
  import opened Js
  import opened Entities
  import opened Http
  import opened Db
  import opened Utils
  import opened Routes
  import opened RequireAuth
  import opened RequireRole

  /** The form the handlers store: a trimmed name, an e-mail in normal form
      and non-empty, a trimmed phone. */
  predicate VendorNormal(v: Vendor) {
    && IsTrimmed(v.name)
    && (v.email.Some? ==> v.email.value != "" && IsNormalEmail(v.email.value))
    && (v.phone.Some? ==> IsTrimmed(v.phone.value))
  }

  ghost predicate AllVendorsNormal(vendors: map<Id, Vendor>) {
    forall k :: k in vendors ==> VendorNormal(vendors[k])
  }

  // ---------------------------------------------------------------------------
  // GET /vendors

  /** `search` matches anywhere in the name, ignoring case. The `tag`
      parameter is read and not used. */
  datatype VendorWhere = VendorWhere(search: Option<string>)

  function VendorWhereOf(q: Obj): Result<VendorWhere, Failure> {
    var search := FilterArg(Get(q, "search"));
    if search.Err? then Err(search.error) else Ok(VendorWhere(search.value))
  }

  predicate VendorMatches(w: VendorWhere, v: Vendor) {
    w.search.Some? ==> ContainsInsensitive(v.name, w.search.value)
  }

  function VendorFilter(w: VendorWhere): Vendor -> bool {
    v => VendorMatches(w, v)
  }

  /** `orderBy: { name: 'asc' }` */
  const ByName: (Vendor, Vendor) -> bool := (a: Vendor, b: Vendor) => LexLe(a.name, b.name)

  lemma ByNameIsOrder()
    ensures TotalPreorder(ByName)
  {
    LexLeIsTotalPreorder((v: Vendor) => v.name, ByName);
  }

  /** The search ignores case. */
  lemma SearchIgnoresCase(s: string, v: Vendor)
    ensures VendorMatches(VendorWhere(Some(s)), v) == VendorMatches(VendorWhere(Some(Lower(s))), v)
  {
    LowerIdempotent(s);
  }

  /** A `tag` in the query changes nothing. */
  lemma TagIsIgnored(q: Obj, tag: Value)
    ensures VendorWhereOf(q["tag" := tag]) == VendorWhereOf(q)
  {
    assert Get(q["tag" := tag], "search") == Get(q, "search");
  }

  method List(db: Store, req: Request) returns (reply: Reply)
    ensures var q := req.Query();
      && (VendorWhereOf(q).Err? || PageOf(q).Err? ==> reply == ServerError)
      && (VendorWhereOf(q).Ok? && PageOf(q).Ok? ==>
            ListedAs(reply, db.vendors, VendorFilter(VendorWhereOf(q).value), ByName, PageOf(q).value, VendorRow))
  {
    var q := req.Query();
    var where := VendorWhereOf(q);
    var page := PageOf(q);
    if where.Err? || page.Err? {
      return ServerError;
    }
    ByNameIsOrder();
    reply := ListRows(db.vendors, VendorFilter(where.value), ByName, page.value, VendorRow);
  }

  // ---------------------------------------------------------------------------
  // GET /vendors/:id

  method Show(db: Store, id: Id) returns (reply: Reply)
    ensures id in db.vendors ==> reply == Json(200, RowBody(VendorRow(id, db.vendors[id])))
    ensures id !in db.vendors ==> reply == Json(404, ErrorBody("Vendor not found"))
  {
    if id !in db.vendors {
      return Json(404, ErrorBody("Vendor not found"));
    }
    reply := Json(200, RowBody(VendorRow(id, db.vendors[id])));
  }

  // ---------------------------------------------------------------------------
  // POST /vendors

  /** The row `prisma.vendor.create` stores: the name trimmed, a falsy
      address as null, the e-mail normalised, a blank phone as null, a falsy
      rating as 0 and a falsy `notes` as null. */
  function NewVendor(body: Obj, now: int): (r: Result<Vendor, Failure>)
    ensures r.Ok? <==> && "name" in body && body["name"].Str?
                       && (Truthy(Get(body, "addressId")) ==> body["addressId"].Str?)
                       && ("email" in body ==> body["email"].Null? || body["email"].Str?)
                       && ("phone" in body ==> body["phone"].Null? || body["phone"].Str?)
    ensures r.Err? ==> r.error == Uncoded
  {
    var name := TrimOf(Get(body, "name"));
    var addressId := RefOrNull(Get(body, "addressId"));
    var email := EmailOrNull(Get(body, "email"));
    var phone := TrimOrNull(Get(body, "phone"));
    var rating := if Truthy(Get(body, "rating")) then body["rating"] else Num(0);
    if name.Err? || addressId.Err? || email.Err? || phone.Err? then Err(Uncoded)
    else Ok(Vendor(name.value, addressId.value, email.value, phone.value, rating,
                   OrNull(Get(body, "notes")), now))
  }

  /** The defaults of a created vendor. */
  lemma NewVendorDefaults(body: Obj, now: int)
    requires NewVendor(body, now).Ok?
    ensures var v := NewVendor(body, now).value;
      && v.name == Trim(body["name"].s) && v.createdAt == now
      && (v.addressId.None? <==> !Truthy(Get(body, "addressId")))
      && (v.addressId.Some? ==> v.addressId.value == body["addressId"].s)
      && (!Truthy(Get(body, "rating")) ==> v.rating == Num(0))
      && (Truthy(Get(body, "rating")) ==> v.rating == body["rating"])
      && (!Truthy(Get(body, "notes")) ==> v.notes == Null)
  {
  }

  lemma NewVendorNormal(body: Obj, now: int)
    requires NewVendor(body, now).Ok?
    ensures VendorNormal(NewVendor(body, now).value)
  {
    TrimIsTrimmed(body["name"].s);
  }

  /** Creating a vendor keeps every stored vendor in normal form. */
  lemma CreateKeepsNormal(vendors: map<Id, Vendor>, k: Id, body: Obj, now: int)
    requires NewVendor(body, now).Ok? && AllVendorsNormal(vendors)
    ensures AllVendorsNormal(vendors[k := NewVendor(body, now).value])
  {
    NewVendorNormal(body, now);
  }

  /** The references a create checks: the address, when truthy. */
  function CreateRefs(body: Obj): seq<Ref> {
    RefIfTruthy(body, "addressId", "address")
  }

  /** A create that passes its check stores an address that exists. */
  lemma CreatedVendorRefs(db: Store, body: Obj, now: int)
    requires CheckAll(db, CreateRefs(body)).Exists? && NewVendor(body, now).Ok?
    ensures VendorRefsOk(NewVendor(body, now).value, db.addresses)
  {
    CheckAllFirst(db, CreateRefs(body));
    if Truthy(Get(body, "addressId")) {
      assert Check(db, CreateRefs(body)[0]).Exists?;
    }
  }

  /** The columns the create reply selects. */
  const CreatedView: set<string> := {"id", "name", "addressId"}

  const NameRequired: Reply := Json(400, ErrorBody("Name is required"))

  method Create(db: Store, req: Request, env: Env, newId: Id, now: int) returns (reply: Reply)
    requires newId !in db.vendors
    modifies db, req
    ensures db.users == old(db.users) && db.clients == old(db.clients) && db.addresses == old(db.addresses)
    ensures db.weddings == old(db.weddings) && db.tasks == old(db.tasks)
    ensures old(db.RefsIntact()) ==> db.RefsIntact()
    ensures match Authenticate(req.authorization, req.cookieToken, env)
      case Rejected(r) => reply == r && db.vendors == old(db.vendors)
      case Authenticated(_) =>
        var body := old(req.body);
        var checked := old(CheckAll(db, CreateRefs(body)));
        if !Truthy(Get(body, "name")) then
          reply == NameRequired && db.vendors == old(db.vendors)
        else if !checked.Exists? then
          reply == Refused(checked) && db.vendors == old(db.vendors)
        else match NewVendor(body, now)
          case Err(_) => reply == ServerError && db.vendors == old(db.vendors)
          case Ok(v) =>
            db.vendors == old(db.vendors)[newId := v] && reply == Json(201, RowBody(Select(VendorRow(newId, v), CreatedView)))
  {
    var step := RequireAuth.RequireAuth(req, env);
    if step.Halt? {
      return step.reply;
    }
    var body := req.body;
    if !Truthy(Get(body, "name")) {
      return NameRequired;
    }
    var checked := CheckAll(db, CreateRefs(body));
    if !checked.Exists? {
      return Refused(checked);
    }
    var data := NewVendor(body, now);
    if data.Err? {
      return HandlePrismaError(data.error);
    }
    CreatedVendorRefs(db, body, now);
    db.PutVendor(newId, data.value);
    reply := Json(201, RowBody(Select(VendorRow(newId, data.value), CreatedView)));
  }

  // ---------------------------------------------------------------------------
  // PUT /vendors/:id

  /** The update object. `addressId`, `rating` and `notes` are copied as
      given; the store reads the address as a reference. */
  datatype VendorPatch = VendorPatch(name: Option<string>, addressId: Option<Value>,
                                     email: Option<Option<string>>, phone: Option<Option<string>>,
                                     rating: Option<Value>, notes: Option<Value>)

  function VendorChanges(body: Obj): (r: Result<VendorPatch, Failure>)
    ensures r.Ok? <==>
      && ("name" in body ==> body["name"].Str?)
      && ("email" in body ==> body["email"].Null? || body["email"].Str?)
      && ("phone" in body && Truthy(Some(body["phone"])) ==> body["phone"].Str?)
    ensures r.Err? ==> r.error == Uncoded
    ensures r.Ok? ==> r.value.addressId == Get(body, "addressId")
    ensures r.Ok? ==> (r.value.rating.Some? <==> "rating" in body) && (r.value.notes.Some? <==> "notes" in body)
  {
    var name := if "name" in body then TrimOf(Get(body, "name")) else Ok("");
    var email := if "email" in body then EmailOrNull(Get(body, "email")) else Ok(None);
    var phone := if "phone" in body then TrimIfTruthy(Get(body, "phone")) else Ok(None);
    if name.Err? then Err(name.error)
    else if email.Err? then Err(email.error)
    else if phone.Err? then Err(phone.error)
    else Ok(VendorPatch(
      if "name" in body then Some(name.value) else None,
      Get(body, "addressId"),
      if "email" in body then Some(email.value) else None,
      if "phone" in body then Some(phone.value) else None,
      Get(body, "rating"),
      Get(body, "notes")))
  }

  /** `prisma.vendor.update(...)` on an existing row: the store refuses an
      address that is neither null nor a string. */
  function PatchedVendor(v: Vendor, p: VendorPatch): Result<Vendor, Failure> {
    var addressId := if p.addressId.Some? then AsRef(p.addressId.value) else Ok(v.addressId);
    if addressId.Err? then Err(addressId.error)
    else Ok(Vendor(
      if p.name.Some? then p.name.value else v.name,
      addressId.value,
      if p.email.Some? then p.email.value else v.email,
      if p.phone.Some? then p.phone.value else v.phone,
      if p.rating.Some? then p.rating.value else v.rating,
      if p.notes.Some? then p.notes.value else v.notes,
      v.createdAt))
  }

  /** Applying the same update twice is applying it once. */
  lemma PatchIdempotent(v: Vendor, p: VendorPatch)
    requires PatchedVendor(v, p).Ok?
    ensures PatchedVendor(PatchedVendor(v, p).value, p) == PatchedVendor(v, p)
  {
  }

  /** A column the body does not mention keeps its value. */
  lemma PatchTouchesOnlySupplied(v: Vendor, body: Obj)
    requires VendorChanges(body).Ok? && PatchedVendor(v, VendorChanges(body).value).Ok?
    ensures var d := PatchedVendor(v, VendorChanges(body).value).value;
      && ("name" !in body ==> d.name == v.name) && ("addressId" !in body ==> d.addressId == v.addressId)
      && ("email" !in body ==> d.email == v.email) && ("phone" !in body ==> d.phone == v.phone)
      && ("rating" !in body ==> d.rating == v.rating) && ("notes" !in body ==> d.notes == v.notes)
      && d.createdAt == v.createdAt
  {
  }

  /** An update keeps a vendor in normal form. */
  lemma PatchKeepsNormal(v: Vendor, body: Obj)
    requires VendorNormal(v) && VendorChanges(body).Ok? && PatchedVendor(v, VendorChanges(body).value).Ok?
    ensures VendorNormal(PatchedVendor(v, VendorChanges(body).value).value)
  {
    if "name" in body { TrimIsTrimmed(body["name"].s); }
    if "phone" in body && Truthy(Some(body["phone"])) { TrimIsTrimmed(body["phone"].s); }
  }

  /** Updating a vendor keeps every stored vendor in normal form. */
  lemma UpdateKeepsNormal(vendors: map<Id, Vendor>, id: Id, body: Obj)
    requires id in vendors && VendorChanges(body).Ok? && AllVendorsNormal(vendors)
    requires PatchedVendor(vendors[id], VendorChanges(body).value).Ok?
    ensures AllVendorsNormal(vendors[id := PatchedVendor(vendors[id], VendorChanges(body).value).value])
  {
    PatchKeepsNormal(vendors[id], body);
  }

  /** The references an update checks: the address, when given and not
      null. */
  function UpdateRefs(body: Obj): seq<Ref> {
    RefIfGiven(body, "addressId", "address")
  }

  /** An update that passes its check stores an address that exists. */
  lemma UpdatedVendorRefs(db: Store, v: Vendor, body: Obj)
    requires VendorRefsOk(v, db.addresses)
    requires CheckAll(db, UpdateRefs(body)).Exists? && VendorChanges(body).Ok?
    requires PatchedVendor(v, VendorChanges(body).value).Ok?
    ensures VendorRefsOk(PatchedVendor(v, VendorChanges(body).value).value, db.addresses)
  {
    if "addressId" in body && !body["addressId"].Null? {
      GivenRefChecked(db, body, "addressId", "address");
    }
  }

  /** Once the check passes, the store accepts the address the update
      writes: it is null or the id of an existing address. */
  lemma CheckedPatchApplies(db: Store, v: Vendor, body: Obj)
    requires CheckAll(db, UpdateRefs(body)).Exists? && VendorChanges(body).Ok?
    ensures PatchedVendor(v, VendorChanges(body).value).Ok?
  {
    if "addressId" in body && !body["addressId"].Null? {
      GivenRefChecked(db, body, "addressId", "address");
    }
  }

  method Update(db: Store, req: Request, env: Env, id: Id) returns (reply: Reply)
    modifies db, req
    ensures db.users == old(db.users) && db.clients == old(db.clients) && db.addresses == old(db.addresses)
    ensures db.weddings == old(db.weddings) && db.tasks == old(db.tasks)
    ensures old(db.RefsIntact()) ==> db.RefsIntact()
    ensures match Authenticate(req.authorization, req.cookieToken, env)
      case Rejected(r) => reply == r && db.vendors == old(db.vendors)
      case Authenticated(_) =>
        var body := old(req.body);
        var checked := old(CheckAll(db, UpdateRefs(body)));
        match VendorChanges(body)
        case Err(_) => reply == ServerError && db.vendors == old(db.vendors)
        case Ok(p) =>
          if !checked.Exists? then reply == Refused(checked) && db.vendors == old(db.vendors)
          else if id !in old(db.vendors) then reply == NotFound && db.vendors == old(db.vendors)
          else
            var v := PatchedVendor(old(db.vendors)[id], p);
            v.Ok? && db.vendors == old(db.vendors)[id := v.value] && reply == Json(200, RowBody(VendorRow(id, v.value)))
  {
    var step := RequireAuth.RequireAuth(req, env);
    if step.Halt? {
      return step.reply;
    }
    var body := req.body;
    var changes := VendorChanges(body);
    if changes.Err? {
      return HandlePrismaError(changes.error);
    }
    var checked := CheckAll(db, UpdateRefs(body));
    if !checked.Exists? {
      return Refused(checked);
    }
    if id !in db.vendors {
      return HandlePrismaError(RecordMissing);
    }
    CheckedPatchApplies(db, db.vendors[id], body);
    var v := PatchedVendor(db.vendors[id], changes.value);
    if db.RefsIntact() {
      UpdatedVendorRefs(db, db.vendors[id], body);
    }
    db.PutVendor(id, v.value);
    reply := Json(200, RowBody(VendorRow(id, v.value)));
  }

  // ---------------------------------------------------------------------------
  // DELETE /vendors/:id

  method Delete(db: Store, req: Request, env: Env, id: Id) returns (reply: Reply)
    modifies db, req
    ensures db.users == old(db.users) && db.clients == old(db.clients) && db.addresses == old(db.addresses)
    ensures db.weddings == old(db.weddings) && db.tasks == old(db.tasks)
    ensures old(db.RefsIntact()) ==> db.RefsIntact()
    ensures match Authenticate(req.authorization, req.cookieToken, env)
      case Rejected(r) => reply == r && db.vendors == old(db.vendors)
      case Authenticated(user) =>
        match Gate(StaffOnly, Some(user))
        case Halt(r) => reply == r && db.vendors == old(db.vendors)
        case Next =>
          if id !in old(db.vendors) then reply == NotFound && db.vendors == old(db.vendors)
          else db.vendors == old(db.vendors) - {id} && reply == Json(200, MessageBody("Vendor deleted"))
  {
    var step := RequireAuth.RequireAuth(req, env);
    if step.Halt? {
      return step.reply;
    }
    var gate := Gate(StaffOnly, req.user);
    if gate.Halt? {
      return gate.reply;
    }
    if id !in db.vendors {
      return HandlePrismaError(RecordMissing);
    }
    db.vendors := db.vendors - {id};
    reply := Json(200, MessageBody("Vendor deleted"));
  }
}
