/** The `/weddings` router: list by an inclusive date range, fetch, create
    and update with the location and spouse references checked in turn,
    and delete. */
module Weddings {
  import opened Js
  import opened Entities
  import opened Http
  import opened Db
  import opened Utils
  import opened Routes
  import opened RequireAuth
  import opened RequireRole

  // ---------------------------------------------------------------------------
  // GET /weddings

  /** `date: { gte: new Date(dateFrom), lte: new Date(dateTo) }`, each bound
      only when its parameter is truthy. */
  datatype WeddingWhere = WeddingWhere(from: Option<int>, to: Option<int>)

  /** A bound that is not a valid date is refused by the store. */
  function DateBound(env: Env, o: Option<Value>): (r: Result<Option<int>, Failure>)
    ensures !Truthy(o) ==> r == Ok(None)
    ensures Truthy(o) ==> (r.Ok? <==> DateOf(env, o.value).Some?)
    ensures Truthy(o) && r.Ok? ==> r.value == DateOf(env, o.value)
  {
    if !Truthy(o) then Ok(None)
    else
      var d := DateOf(env, o.value);
      if d.Some? then Ok(d) else Err(Uncoded)
  }

  function WeddingWhereOf(env: Env, q: Obj): Result<WeddingWhere, Failure> {
    var from := DateBound(env, Get(q, "dateFrom"));
    var to := DateBound(env, Get(q, "dateTo"));
    if from.Err? then Err(from.error)
    else if to.Err? then Err(to.error)
    else Ok(WeddingWhere(from.value, to.value))
  }

  predicate WeddingMatches(w: WeddingWhere, x: Wedding) {
    (w.from.Some? ==> x.date >= w.from.value) && (w.to.Some? ==> x.date <= w.to.value)
  }

  function WeddingFilter(w: WeddingWhere): Wedding -> bool {
    x => WeddingMatches(w, x)
  }

  /** `orderBy: { date: 'asc' }` */
  const ByDate: (Wedding, Wedding) -> bool := (a: Wedding, b: Wedding) => a.date <= b.date

  lemma ByDateIsOrder()
    ensures TotalPreorder(ByDate)
  {
  }

  /** Both ends of the range are included, and a range whose start is after
      its end keeps nothing. */
  lemma RangeIsInclusive(from: int, to: int, x: Wedding)
    ensures x.date == from && from <= to ==> WeddingMatches(WeddingWhere(Some(from), Some(to)), x)
    ensures x.date == to && from <= to ==> WeddingMatches(WeddingWhere(Some(from), Some(to)), x)
    ensures from > to ==> !WeddingMatches(WeddingWhere(Some(from), Some(to)), x)
  {
  }

  method List(db: Store, req: Request, env: Env) returns (reply: Reply)
    ensures var q := req.Query();
      && (WeddingWhereOf(env, q).Err? || PageOf(q).Err? ==> reply == ServerError)
      && (WeddingWhereOf(env, q).Ok? && PageOf(q).Ok? ==>
            ListedAs(reply, db.weddings, WeddingFilter(WeddingWhereOf(env, q).value), ByDate, PageOf(q).value, WeddingRow))
  {
    var q := req.Query();
    var where := WeddingWhereOf(env, q);
    var page := PageOf(q);
    if where.Err? || page.Err? {
      return ServerError;
    }
    ByDateIsOrder();
    reply := ListRows(db.weddings, WeddingFilter(where.value), ByDate, page.value, WeddingRow);
  }

  // ---------------------------------------------------------------------------
  // GET /weddings/:id

  method Show(db: Store, id: Id) returns (reply: Reply)
    ensures id in db.weddings ==> reply == Json(200, RowBody(WeddingRow(id, db.weddings[id])))
    ensures id !in db.weddings ==> reply == Json(404, ErrorBody("Wedding not found"))
  {
    if id !in db.weddings {
      return Json(404, ErrorBody("Wedding not found"));
    }
    reply := Json(200, RowBody(WeddingRow(id, db.weddings[id])));
  }

  // ---------------------------------------------------------------------------
  // POST /weddings

  const DateRequired: Reply := Json(400, ErrorBody("date is required"))

  /** The checks a create makes, in order: the location, then each spouse,
      each only when truthy. */
  function CreateRefs(body: Obj): seq<Ref> {
    RefIfTruthy(body, "locationId", "address")
      + RefIfTruthy(body, "spouse1Id", "client")
      + RefIfTruthy(body, "spouse2Id", "client")
  }

  /** The row `prisma.wedding.create` stores: `new Date(date)`, and each
      reference or null. */
  function NewWedding(env: Env, body: Obj, now: int): (r: Result<Wedding, Failure>)
    requires "date" in body
    ensures r.Err? ==> r.error == Uncoded
    ensures r.Ok? ==> Some(r.value.date) == DateOf(env, body["date"]) && r.value.createdAt == now
  {
    var date := AsTime(NewDate(env, body["date"]));
    var locationId := RefOrNull(Get(body, "locationId"));
    var spouse1Id := RefOrNull(Get(body, "spouse1Id"));
    var spouse2Id := RefOrNull(Get(body, "spouse2Id"));
    if date.Err? then Err(date.error)
    else if locationId.Err? then Err(locationId.error)
    else if spouse1Id.Err? then Err(spouse1Id.error)
    else if spouse2Id.Err? then Err(spouse2Id.error)
    else Ok(Wedding(date.value, locationId.value, spouse1Id.value, spouse2Id.value, now))
  }

  /** Once the checks pass, the store refuses a create only for its date,
      and every reference it stores exists; a falsy one is stored as null. */
  lemma CheckedCreate(db: Store, env: Env, body: Obj, now: int)
    requires "date" in body && CheckAll(db, CreateRefs(body)).Exists?
    ensures NewWedding(env, body, now).Ok? <==> DateOf(env, body["date"]).Some?
    ensures NewWedding(env, body, now).Ok? ==>
      var w := NewWedding(env, body, now).value;
      && WeddingRefsOk(w, db.addresses, db.clients)
      && (w.locationId.None? <==> !Truthy(Get(body, "locationId")))
      && (w.spouse1Id.None? <==> !Truthy(Get(body, "spouse1Id")))
      && (w.spouse2Id.None? <==> !Truthy(Get(body, "spouse2Id")))
  {
    var a := RefIfTruthy(body, "locationId", "address");
    var b := RefIfTruthy(body, "spouse1Id", "client");
    var c := RefIfTruthy(body, "spouse2Id", "client");
    CheckAllAppend(db, a + b, c);
    CheckAllAppend(db, a, b);
    if Truthy(Get(body, "locationId")) { TruthyRefChecked(db, body, "locationId", "address"); }
    if Truthy(Get(body, "spouse1Id")) { TruthyRefChecked(db, body, "spouse1Id", "client"); }
    if Truthy(Get(body, "spouse2Id")) { TruthyRefChecked(db, body, "spouse2Id", "client"); }
  }

  /** The location is checked before the spouses: when it is missing the
      answer names it, whatever the spouses are. */
  lemma LocationCheckedFirst(db: Store, body: Obj)
    requires Truthy(Get(body, "locationId")) && body["locationId"].Str?
    requires body["locationId"].s !in db.addresses
    ensures CheckAll(db, CreateRefs(body)) == Responded(MissingReference("address", "locationId"))
  {
    var a := RefIfTruthy(body, "locationId", "address");
    var b := RefIfTruthy(body, "spouse1Id", "client");
    var c := RefIfTruthy(body, "spouse2Id", "client");
    CheckAllAppend(db, a + b, c);
    CheckAllAppend(db, a, b);
    CheckOne(db, a[0]);
  }

  /** The columns the create reply selects. */
  const CreatedView: set<string> := {"id", "date", "locationId"}

  method Create(db: Store, req: Request, env: Env, newId: Id, now: int) returns (reply: Reply)
    requires newId !in db.weddings
    modifies db, req
    ensures db.users == old(db.users) && db.clients == old(db.clients) && db.addresses == old(db.addresses)
    ensures db.vendors == old(db.vendors) && db.tasks == old(db.tasks)
    ensures old(db.RefsIntact()) ==> db.RefsIntact()
    ensures match Authenticate(req.authorization, req.cookieToken, env)
      case Rejected(r) => reply == r && db.weddings == old(db.weddings)
      case Authenticated(_) =>
        var body := old(req.body);
        var checked := old(CheckAll(db, CreateRefs(body)));
        if !Truthy(Get(body, "date")) then
          reply == DateRequired && db.weddings == old(db.weddings)
        else if !checked.Exists? then
          reply == Refused(checked) && db.weddings == old(db.weddings)
        else match NewWedding(env, body, now)
          case Err(_) => reply == ServerError && db.weddings == old(db.weddings)
          case Ok(w) =>
            db.weddings == old(db.weddings)[newId := w] && reply == Json(201, RowBody(Select(WeddingRow(newId, w), CreatedView)))
  {
    var step := RequireAuth.RequireAuth(req, env);
    if step.Halt? {
      return step.reply;
    }
    var body := req.body;
    if !Truthy(Get(body, "date")) {
      return DateRequired;
    }
    var checked := CheckAll(db, CreateRefs(body));
    if !checked.Exists? {
      return Refused(checked);
    }
    var data := NewWedding(env, body, now);
    if data.Err? {
      return HandlePrismaError(data.error);
    }
    CheckedCreate(db, env, body, now);
    db.PutWedding(newId, data.value);
    reply := Json(201, RowBody(Select(WeddingRow(newId, data.value), CreatedView)));
  }

  // ---------------------------------------------------------------------------
  // PUT /weddings/:id

  /** The update object: `new Date(date)` and the references as given. */
  datatype WeddingPatch = WeddingPatch(date: Option<Value>, locationId: Option<Value>,
                                       spouse1Id: Option<Value>, spouse2Id: Option<Value>)

  function WeddingChanges(env: Env, body: Obj): (p: WeddingPatch)
    ensures p.date.Some? <==> "date" in body
    ensures p.date.Some? ==> p.date.value == Date(DateOf(env, body["date"]))
    ensures p.locationId == Get(body, "locationId") && p.spouse1Id == Get(body, "spouse1Id")
    ensures p.spouse2Id == Get(body, "spouse2Id")
  {
    WeddingPatch(
      if "date" in body then Some(NewDate(env, body["date"])) else None,
      Get(body, "locationId"), Get(body, "spouse1Id"), Get(body, "spouse2Id"))
  }

  /** `new Date(null)` is the epoch: an update with `date: null` moves the
      wedding to 1 January 1970 rather than being refused. */
  lemma NullDateIsEpoch(env: Env, body: Obj)
    requires "date" in body && body["date"].Null?
    ensures WeddingChanges(env, body).date == Some(Date(Some(0)))
  {
  }

  /** The store accepts the update object: a valid date, and references
      that are null or strings. */
  predicate PatchAccepted(p: WeddingPatch) {
    && (p.date.Some? ==> AsTime(p.date.value).Ok?)
    && (p.locationId.Some? ==> AsRef(p.locationId.value).Ok?)
    && (p.spouse1Id.Some? ==> AsRef(p.spouse1Id.value).Ok?)
    && (p.spouse2Id.Some? ==> AsRef(p.spouse2Id.value).Ok?)
  }

  function Patched(w: Wedding, p: WeddingPatch): Wedding
    requires PatchAccepted(p)
  {
    Wedding(
      if p.date.Some? then AsTime(p.date.value).value else w.date,
      if p.locationId.Some? then AsRef(p.locationId.value).value else w.locationId,
      if p.spouse1Id.Some? then AsRef(p.spouse1Id.value).value else w.spouse1Id,
      if p.spouse2Id.Some? then AsRef(p.spouse2Id.value).value else w.spouse2Id,
      w.createdAt)
  }

  lemma PatchIdempotent(w: Wedding, p: WeddingPatch)
    requires PatchAccepted(p)
    ensures Patched(Patched(w, p), p) == Patched(w, p)
  {
  }

  /** A column the body does not mention keeps its value; a null reference
      clears its column. */
  lemma PatchTouchesOnlySupplied(env: Env, w: Wedding, body: Obj)
    requires PatchAccepted(WeddingChanges(env, body))
    ensures var d := Patched(w, WeddingChanges(env, body));
      && ("date" !in body ==> d.date == w.date)
      && ("locationId" !in body ==> d.locationId == w.locationId)
      && ("spouse1Id" !in body ==> d.spouse1Id == w.spouse1Id)
      && ("spouse2Id" !in body ==> d.spouse2Id == w.spouse2Id)
      && ("locationId" in body && body["locationId"].Null? ==> d.locationId.None?)
      && ("spouse1Id" in body && body["spouse1Id"].Null? ==> d.spouse1Id.None?)
      && ("spouse2Id" in body && body["spouse2Id"].Null? ==> d.spouse2Id.None?)
      && d.createdAt == w.createdAt
  {
  }

  /** The checks an update makes, in order: each reference the body gives
      and does not set to null. */
  function UpdateRefs(body: Obj): seq<Ref> {
    RefIfGiven(body, "locationId", "address")
      + RefIfGiven(body, "spouse1Id", "client")
      + RefIfGiven(body, "spouse2Id", "client")
  }

  /** Once the checks pass, the store refuses an update only for its date,
      and the updated row's references exist. */
  lemma CheckedUpdate(db: Store, env: Env, w: Wedding, body: Obj)
    requires CheckAll(db, UpdateRefs(body)).Exists?
    ensures PatchAccepted(WeddingChanges(env, body)) <==>
      ("date" in body ==> DateOf(env, body["date"]).Some?)
    ensures PatchAccepted(WeddingChanges(env, body)) && WeddingRefsOk(w, db.addresses, db.clients) ==>
      WeddingRefsOk(Patched(w, WeddingChanges(env, body)), db.addresses, db.clients)
  {
    var a := RefIfGiven(body, "locationId", "address");
    var b := RefIfGiven(body, "spouse1Id", "client");
    var c := RefIfGiven(body, "spouse2Id", "client");
    CheckAllAppend(db, a + b, c);
    CheckAllAppend(db, a, b);
    if "locationId" in body && !body["locationId"].Null? { GivenRefChecked(db, body, "locationId", "address"); }
    if "spouse1Id" in body && !body["spouse1Id"].Null? { GivenRefChecked(db, body, "spouse1Id", "client"); }
    if "spouse2Id" in body && !body["spouse2Id"].Null? { GivenRefChecked(db, body, "spouse2Id", "client"); }
  }

  method Update(db: Store, req: Request, env: Env, id: Id) returns (reply: Reply)
    modifies db, req
    ensures db.users == old(db.users) && db.clients == old(db.clients) && db.addresses == old(db.addresses)
    ensures db.vendors == old(db.vendors) && db.tasks == old(db.tasks)
    ensures old(db.RefsIntact()) ==> db.RefsIntact()
    ensures match Authenticate(req.authorization, req.cookieToken, env)
      case Rejected(r) => reply == r && db.weddings == old(db.weddings)
      case Authenticated(_) =>
        var body := old(req.body);
        var p := WeddingChanges(env, body);
        var checked := old(CheckAll(db, UpdateRefs(body)));
        if !checked.Exists? then reply == Refused(checked) && db.weddings == old(db.weddings)
        else if !PatchAccepted(p) then reply == ServerError && db.weddings == old(db.weddings)
        else if id !in old(db.weddings) then reply == NotFound && db.weddings == old(db.weddings)
        else
          var w := Patched(old(db.weddings)[id], p);
          db.weddings == old(db.weddings)[id := w] && reply == Json(200, RowBody(WeddingRow(id, w)))
  {
    var step := RequireAuth.RequireAuth(req, env);
    if step.Halt? {
      return step.reply;
    }
    var body := req.body;
    var p := WeddingChanges(env, body);
    var checked := CheckAll(db, UpdateRefs(body));
    if !checked.Exists? {
      return Refused(checked);
    }
    if !PatchAccepted(p) {
      return HandlePrismaError(Uncoded);
    }
    if id !in db.weddings {
      return HandlePrismaError(RecordMissing);
    }
    var w := Patched(db.weddings[id], p);
    if db.RefsIntact() {
      CheckedUpdate(db, env, db.weddings[id], body);
    }
    db.PutWedding(id, w);
    reply := Json(200, RowBody(WeddingRow(id, w)));
  }

  // ---------------------------------------------------------------------------
  // DELETE /weddings/:id

  method Delete(db: Store, req: Request, env: Env, id: Id) returns (reply: Reply)
    modifies db, req
    ensures db.users == old(db.users) && db.clients == old(db.clients) && db.addresses == old(db.addresses)
    ensures db.vendors == old(db.vendors) && db.tasks == old(db.tasks)
    ensures match Authenticate(req.authorization, req.cookieToken, env)
      case Rejected(r) => reply == r && db.weddings == old(db.weddings)
      case Authenticated(user) =>
        match Gate(StaffOnly, Some(user))
        case Halt(r) => reply == r && db.weddings == old(db.weddings)
        case Next =>
          if id !in old(db.weddings) then reply == NotFound && db.weddings == old(db.weddings)
          else db.weddings == old(db.weddings) - {id} && reply == Json(200, MessageBody("Wedding deleted"))
  {
    var step := RequireAuth.RequireAuth(req, env);
    if step.Halt? {
      return step.reply;
    }
    var gate := Gate(StaffOnly, req.user);
    if gate.Halt? {
      return gate.reply;
    }
    if id !in db.weddings {
      return HandlePrismaError(RecordMissing);
    }
    db.weddings := db.weddings - {id};
    reply := Json(200, MessageBody("Wedding deleted"));
  }
}
