/** The helpers every router shares: the mapping from a caught error to a
    reply, and the check that a referenced row exists before a write. */
module Utils {
  import opened Js
  import opened Entities
  import opened Http
  import opened Db

  /** `handlePrismaError(res, error)`: the three Prisma codes the routes
      expect get their own status; every other error, coded or not, gets
      the same generic 500. */
  function HandlePrismaError(err: Failure): (r: Reply)
    ensures r.cookie == Keep && r.content.ErrorBody?
    ensures r.status == 409 <==> err.code == Some("P2002")
    ensures r.status == 404 <==> err.code == Some("P2025")
    ensures r.status == 400 <==> err.code == Some("P2003")
    ensures r.status in {400, 404, 409, 500}
  {
    if err.code.Some? && err.code.value != "" then
      match err.code.value
      case "P2002" => Json(409, ErrorBody("Unique constraint failed."))
      case "P2025" => Json(404, ErrorBody("Record not found."))
      case "P2003" => Json(400, ErrorBody("Foreign key constraint failed."))
      case _ => Json(500, ErrorBody("Internal server error."))
    else
      Json(500, ErrorBody("Internal server error."))
  }

  /** Every error without one of the three codes gets the very same reply,
      whatever its code or message. */
  lemma UnrecognisedErrorsLookAlike(a: Failure, b: Failure)
    requires a.code !in {Some("P2002"), Some("P2025"), Some("P2003")}
    requires b.code !in {Some("P2002"), Some("P2025"), Some("P2003")}
    ensures HandlePrismaError(a) == HandlePrismaError(b) == Json(500, ErrorBody("Internal server error."))
  {
  }

  // ---------------------------------------------------------------------------
  // ensureExists / ensureExistsOrRespond

  /** The lower-case names under which the Prisma client exposes a model. */
  const Models: set<string> := {"user", "client", "address", "vendor", "wedding", "task"}

  /** `prisma[model].findUnique({ where: { id } })` finds a row. */
  predicate HasRow(db: Store, model: string, id: Id)
    reads db
  {
    match model
    case "user" => id in db.users
    case "client" => id in db.clients
    case "address" => id in db.addresses
    case "vendor" => id in db.vendors
    case "wedding" => id in db.weddings
    case "task" => id in db.tasks
    case _ => false
  }

  /** How `ensureExists` ends: it returns `true`, throws an `FKNotFoundError`,
      or throws something else. */
  datatype Lookup =
    | Found
    | FkNotFound(model: string, missingId: Value, field: string)
    | Threw(err: Failure)

  /** A falsy id is missing without a lookup; an unknown model is a plain
      `Error`; a truthy id that is not a string is refused by the client. */
  function EnsureExists(db: Store, model: string, id: Value, field: string): (r: Lookup)
    reads db
    ensures !Truthy(Some(id)) ==> r == FkNotFound(model, id, field)
    ensures r.Found? <==> Truthy(Some(id)) && model in Models && id.Str? && HasRow(db, model, id.s)
    ensures r.FkNotFound? ==> r == FkNotFound(model, id, field)
    ensures r.FkNotFound? <==> !Truthy(Some(id)) || (model in Models && id.Str? && !HasRow(db, model, id.s))
    ensures r.Threw? ==> r.err.code.None?
  {
    if !Truthy(Some(id)) then FkNotFound(model, id, field)
    else if model !in Models then Threw(Failure(None, "Unknown model " + model))
    else if !id.Str? then Threw(Uncoded)
    else if HasRow(db, model, id.s) then Found
    else FkNotFound(model, id, field)
  }

  /** How `ensureExistsOrRespond` ends. */
  datatype Checked = Exists | Responded(reply: Reply) | Rethrow(err: Failure)

  /** The 400 sent for a missing reference. */
  function MissingReference(model: string, field: string): Reply {
    Json(400, ErrorBody(field + " does not reference a valid " + model))
  }

  /** An `FKNotFoundError` becomes a 400 naming the field and the model;
      any other error propagates to the caller unchanged. */
  function EnsureExistsOrRespond(db: Store, model: string, id: Value, field: string): (r: Checked)
    reads db
    ensures r.Exists? <==> EnsureExists(db, model, id, field).Found?
    ensures r.Responded? <==> EnsureExists(db, model, id, field).FkNotFound?
    ensures r.Responded? ==> r.reply == MissingReference(model, field)
    ensures r.Rethrow? ==> r.err == EnsureExists(db, model, id, field).err
  {
    match EnsureExists(db, model, id, field)
    case Found => Exists
    case FkNotFound(_, _, _) => Responded(MissingReference(model, field))
    case Threw(e) => Rethrow(e)
  }

  /** A reference a handler checks: the model, the body value, its label. */
  datatype Ref = Ref(model: string, id: Value, field: string)

  /** The handlers' chain of `ensureExistsOrRespond` calls, each returning
      early unless the reference exists. */
  function CheckAll(db: Store, refs: seq<Ref>): (r: Checked)
    reads db
  {
    if refs == [] then Exists
    else
      var c := EnsureExistsOrRespond(db, refs[0].model, refs[0].id, refs[0].field);
      if c.Exists? then CheckAll(db, refs[1..]) else c
  }

  function Check(db: Store, f: Ref): Checked
    reads db
  {
    EnsureExistsOrRespond(db, f.model, f.id, f.field)
  }

  /** The chain passes exactly when every reference exists; otherwise it
      ends as the first reference that does not. */
  lemma {:induction false} CheckAllFirst(db: Store, refs: seq<Ref>)
    ensures CheckAll(db, refs).Exists? <==> forall i :: 0 <= i < |refs| ==> Check(db, refs[i]).Exists?
    ensures !CheckAll(db, refs).Exists? ==>
      exists i :: 0 <= i < |refs| && CheckAll(db, refs) == Check(db, refs[i])
        && forall j :: 0 <= j < i ==> Check(db, refs[j]).Exists?
  {
    if refs != [] {
      CheckAllFirst(db, refs[1..]);
      if Check(db, refs[0]).Exists? {
        assert forall i :: 1 <= i < |refs| ==> refs[i] == refs[1..][i - 1];
        if !CheckAll(db, refs).Exists? {
          var i :| 0 <= i < |refs[1..]| && CheckAll(db, refs[1..]) == Check(db, refs[1..][i])
            && forall j :: 0 <= j < i ==> Check(db, refs[1..][j]).Exists?;
          assert CheckAll(db, refs) == Check(db, refs[i + 1]);
        }
      } else {
        assert CheckAll(db, refs) == Check(db, refs[0]);
      }
    }
  }

  /** Two chains run one after the other: the second runs only when the
      first passes. */
  lemma {:induction false} CheckAllAppend(db: Store, a: seq<Ref>, b: seq<Ref>)
    ensures CheckAll(db, a + b) == if CheckAll(db, a).Exists? then CheckAll(db, b) else CheckAll(db, a)
  {
    if a == [] {
      assert a + b == b;
    } else {
      assert (a + b)[0] == a[0];
      assert (a + b)[1..] == a[1..] + b;
      CheckAllAppend(db, a[1..], b);
    }
  }

  /** A chain of one is that one check. */
  lemma CheckOne(db: Store, r: Ref)
    ensures CheckAll(db, [r]) == Check(db, r)
  {
    assert [r][1..] == [];
  }

  /** A check passes exactly when its id is a string naming an existing row
      of a known model. */
  lemma CheckPasses(db: Store, r: Ref)
    ensures Check(db, r).Exists? <==> r.model in Models && r.id.Str? && r.id.s != "" && HasRow(db, r.model, r.id.s)
  {
  }
}
