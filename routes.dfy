/** What the routers share: the JavaScript expressions they apply to body
    fields, the paging arguments they pass to `findMany`, and the list
    reply `findMany` produces. */
module Routes {
  import opened Js
  import opened Entities
  import opened Http
  import opened Db
  import opened Utils

  /** The answer to every uncoded error a handler catches. */
  const ServerError: Reply := HandlePrismaError(Uncoded)

  /** The answer to a write whose row does not exist (Prisma's P2025). */
  const NotFound: Reply := HandlePrismaError(RecordMissing)

  // ---------------------------------------------------------------------------
  // Expressions on body fields. A method called on `undefined`, `null` or a
  // value without that method throws a TypeError.

  /** `v.trim()`. */
  function TrimOf(o: Option<Value>): (r: Result<string, Failure>)
    ensures r.Ok? <==> o.Some? && o.value.Str?
    ensures r.Ok? ==> r.value == Trim(o.value.s)
    ensures r.Err? ==> r.error == Uncoded
  {
    if o.Some? && o.value.Str? then Ok(Trim(o.value.s)) else Err(Uncoded)
  }

  /** `v?.trim() || null`: a missing, null or blank value is stored as null. */
  function TrimOrNull(o: Option<Value>): (r: Result<Option<string>, Failure>)
    ensures r.Ok? <==> o.None? || o.value.Null? || o.value.Str?
    ensures r.Ok? && r.value.Some? ==> r.value.value != "" && IsTrimmed(r.value.value)
    ensures r.Ok? && o.Some? && o.value.Str? ==> (r.value.None? <==> AllSpace(o.value.s))
    ensures r.Err? ==> r.error == Uncoded
  {
    if o.None? || o.value.Null? then Ok(None)
    else if !o.value.Str? then Err(Uncoded)
    else
      var t := Trim(o.value.s);
      TrimCharacterised(o.value.s);
      if t == "" then Ok(None) else Ok(Some(t))
  }

  /** `v?.toLowerCase().trim() || null`: the e-mail normal form, or null. */
  function EmailOrNull(o: Option<Value>): (r: Result<Option<string>, Failure>)
    ensures r.Ok? <==> o.None? || o.value.Null? || o.value.Str?
    ensures r.Ok? && r.value.Some? ==> r.value.value != "" && IsNormalEmail(r.value.value)
    ensures r.Ok? && o.Some? && o.value.Str? ==> (r.value.None? <==> AllSpace(o.value.s))
    ensures r.Err? ==> r.error == Uncoded
  {
    if o.None? || o.value.Null? then Ok(None)
    else if !o.value.Str? then Err(Uncoded)
    else
      var t := NormalEmail(o.value.s);
      NormalEmailIsNormal(o.value.s);
      BlankIffNormalBlank(o.value.s);
      if t == "" then Ok(None) else Ok(Some(t))
  }

  lemma BlankIffNormalBlank(s: string)
    ensures NormalEmail(s) == "" <==> AllSpace(s)
  {
    TrimLowerCommute(s);
    TrimCharacterised(s);
    TrimCharacterised(Lower(s));
    if AllSpace(s) {
      forall i | 0 <= i < |Lower(s)| ensures IsSpace(Lower(s)[i]) {
        LowerKeepsSpace(s[i]);
      }
    }
    if NormalEmail(s) == "" {
      forall i | 0 <= i < |s| ensures IsSpace(s[i]) {
        assert IsSpace(Lower(s)[i]);
        LowerKeepsSpace(s[i]);
      }
    }
  }

  /** `v ? v.trim() : null`: a falsy value is stored as null; a blank
      string is truthy and is stored trimmed, as the empty string. */
  function TrimIfTruthy(o: Option<Value>): (r: Result<Option<string>, Failure>)
    ensures !Truthy(o) ==> r == Ok(None)
    ensures Truthy(o) ==> (r.Ok? <==> o.value.Str?)
    ensures Truthy(o) && o.value.Str? ==> r == Ok(Some(Trim(o.value.s)))
    ensures r.Err? ==> r.error == Uncoded
  {
    if !Truthy(o) then Ok(None)
    else if o.value.Str? then Ok(Some(Trim(o.value.s)))
    else Err(Uncoded)
  }

  /** `v || null` */
  function OrNull(o: Option<Value>): Value {
    if Truthy(o) then o.value else Null
  }

  // ---------------------------------------------------------------------------
  // How the store reads the values of an update object.

  /** A reference column: null clears it, a string sets it. */
  function AsRef(v: Value): Result<Option<Id>, Failure> {
    match v
    case Null => Ok(None)
    case Str(s) => Ok(Some(s))
    case _ => Err(Uncoded)
  }

  /** A required date column takes a valid `Date`. */
  function AsTime(v: Value): Result<int, Failure> {
    if v.Date? && v.time.Some? then Ok(v.time.value) else Err(Uncoded)
  }

  /** An integer column takes a number; NaN is refused. */
  function AsInt(v: Value): Result<int, Failure> {
    if v.Num? then Ok(v.n) else Err(Uncoded)
  }

  // ---------------------------------------------------------------------------
  // Listing

  /** `limit ? parseInt(limit) : undefined` (and the same for `offset`): the
      store refuses a NaN. */
  function PageArg(o: Option<Value>): (r: Result<Option<int>, Failure>)
    ensures !Truthy(o) ==> r == Ok(None)
    ensures Truthy(o) ==> (r.Ok? <==> ParseIntValue(o.value).Some?)
    ensures Truthy(o) && r.Ok? ==> r.value == ParseIntValue(o.value)
  {
    if !Truthy(o) then Ok(None)
    else
      var n := ParseIntValue(o.value);
      if n.Some? then Ok(n) else Err(Uncoded)
  }

  /** The `skip` and `take` a list handler passes. */
  datatype Page = Page(skip: Option<int>, take: Option<int>)

  function PageOf(q: Obj): Result<Page, Failure> {
    var take := PageArg(Get(q, "limit"));
    var skip := PageArg(Get(q, "offset"));
    if take.Err? then Err(take.error)
    else if skip.Err? then Err(skip.error)
    else Ok(Page(skip.value, take.value))
  }

  /** A truthy query value used as a filter; the store refuses one that is
      not a string (a repeated query key arrives as an array). */
  function FilterArg(o: Option<Value>): (r: Result<Option<string>, Failure>)
    ensures !Truthy(o) ==> r == Ok(None)
    ensures Truthy(o) ==> (r.Ok? <==> o.value.Str?) && (r.Ok? ==> r.value == Some(o.value.s))
  {
    if !Truthy(o) then Ok(None)
    else if o.value.Str? then Ok(Some(o.value.s))
    else Err(Uncoded)
  }

  /** `reply` is what `res.json(await prisma.<model>.findMany(...))` sends:
      the rows `keep` selects, in `le` order, cut by the page; a negative
      `skip` is refused. */
  ghost predicate ListedAs<R(!new)>(reply: Reply, rows: map<Id, R>, keep: R -> bool,
                                    le: (R, R) -> bool, page: Page, view: (Id, R) -> Obj)
  {
    if page.skip.Some? && page.skip.value < 0 then reply == ServerError
    else
      exists ids :: Arranged(rows, keep, le, ids) && Window(ids, page.skip, page.take).Ok?
        && reply == Json(200, RowsBody(RowsOf(rows, Window(ids, page.skip, page.take).value, view)))
  }

  method ListRows<R(!new)>(rows: map<Id, R>, keep: R -> bool, le: (R, R) -> bool,
                           page: Page, view: (Id, R) -> Obj)
    returns (reply: Reply)
    requires TotalPreorder(le)
    ensures ListedAs(reply, rows, keep, le, page, view)
  {
    var found := FindMany(rows, keep, le, page.skip, page.take);
    if found.Err? {
      reply := HandlePrismaError(found.error);
    } else {
      reply := Json(200, RowsBody(RowsOf(rows, found.value, view)));
    }
  }

  /** Without paging, a list reply holds exactly the rows the filter keeps,
      each once, in order. */
  lemma UnpagedListing<R(!new)>(reply: Reply, rows: map<Id, R>, keep: R -> bool,
                                le: (R, R) -> bool, view: (Id, R) -> Obj)
    requires ListedAs(reply, rows, keep, le, Page(None, None), view)
    ensures reply.status == 200 && reply.content.RowsBody?
    ensures forall k :: k in rows && keep(rows[k]) ==> view(k, rows[k]) in reply.content.rows
    ensures forall i :: 0 <= i < |reply.content.rows| ==> ViewOfKept(rows, keep, view, reply.content.rows[i])
  {
    var ids :| Arranged(rows, keep, le, ids) && Window(ids, None, None).Ok?
      && reply == Json(200, RowsBody(RowsOf(rows, Window(ids, None, None).value, view)));
    UnpagedListsAll(ids);
    ListingOfArrangement(rows, keep, le, view, ids);
  }

  lemma ListingOfArrangement<R(!new)>(rows: map<Id, R>, keep: R -> bool, le: (R, R) -> bool,
                                      view: (Id, R) -> Obj, ids: seq<Id>)
    requires Arranged(rows, keep, le, ids)
    ensures forall k :: k in rows && keep(rows[k]) ==> view(k, rows[k]) in RowsOf(rows, ids, view)
    ensures forall i :: 0 <= i < |ids| ==> ViewOfKept(rows, keep, view, RowsOf(rows, ids, view)[i])
  {
    var out := RowsOf(rows, ids, view);
    forall k | k in rows && keep(rows[k]) ensures view(k, rows[k]) in out {
      var i :| 0 <= i < |ids| && ids[i] == k;
      assert out[i] == view(k, rows[k]);
    }
    forall i | 0 <= i < |ids| ensures ViewOfKept(rows, keep, view, out[i]) {
      var k := ids[i];
      assert k in rows && keep(rows[k]);
      assert out[i] == view(k, rows[k]);
    }
  }

  /** `o` is the JSON of some row the filter keeps. */
  ghost predicate ViewOfKept<R>(rows: map<Id, R>, keep: R -> bool, view: (Id, R) -> Obj, o: Obj) {
    exists k :: k in rows && keep(rows[k]) && o == view(k, rows[k])
  }

  // ---------------------------------------------------------------------------
  // Reference checks

  /** `if (v) await ensureExistsOrRespond(res, model, v, key)`: the create
      handlers check a reference only when it is truthy. */
  function RefIfTruthy(body: Obj, key: string, model: string): (r: seq<Ref>)
    ensures Truthy(Get(body, key)) ==> r == [Ref(model, body[key], key)]
    ensures !Truthy(Get(body, key)) ==> r == []
  {
    if Truthy(Get(body, key)) then [Ref(model, body[key], key)] else []
  }

  /** `if (v !== undefined && v !== null) ...`: the update handlers check a
      reference whenever the body gives one that is not null, falsy or not. */
  function RefIfGiven(body: Obj, key: string, model: string): (r: seq<Ref>)
    ensures key in body && !body[key].Null? ==> r == [Ref(model, body[key], key)]
    ensures key !in body || body[key].Null? ==> r == []
  {
    if key in body && !body[key].Null? then [Ref(model, body[key], key)] else []
  }

  /** The reply when a reference check stops the handler: the 400 it sent,
      or what `handlePrismaError` makes of the error it threw. */
  function Refused(c: Checked): Reply
    requires !c.Exists?
  {
    match c
    case Responded(reply) => reply
    case Rethrow(err) => HandlePrismaError(err)
  }

  /** `v || null` for a reference a check has let through. */
  function RefOrNull(o: Option<Value>): (r: Result<Option<Id>, Failure>)
    ensures r.Ok? <==> !Truthy(o) || o.value.Str?
    ensures r.Ok? ==> (r.value.Some? <==> Truthy(o)) && (r.value.Some? ==> r.value.value == o.value.s)
    ensures r.Err? ==> r.error == Uncoded
  {
    if Truthy(o) then AsRef(o.value) else Ok(None)
  }

  /** A truthy reference that passes its check is the id of an existing
      row. */
  lemma TruthyRefChecked(db: Store, body: Obj, key: string, model: string)
    requires CheckAll(db, RefIfTruthy(body, key, model)).Exists? && Truthy(Get(body, key))
    ensures body[key].Str? && HasRow(db, model, body[key].s)
  {
    CheckOne(db, Ref(model, body[key], key));
  }

  /** A given, non-null reference that passes its check is the id of an
      existing row. */
  lemma GivenRefChecked(db: Store, body: Obj, key: string, model: string)
    requires CheckAll(db, RefIfGiven(body, key, model)).Exists? && key in body && !body[key].Null?
    ensures body[key].Str? && HasRow(db, model, body[key].s)
  {
    CheckOne(db, Ref(model, body[key], key));
  }
}
