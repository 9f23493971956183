/** The zod schemas for users: the body of a signup, the body of an update,
    and the query string of the user list. */
module UserSchemas {
  import opened Js
  import opened Entities
  import opened Http

  /** What a field's schema accepts once it is present and not `null`. */
  datatype Kind =
    | Text(minLength: nat)  // z.string().min(n)
    | EmailText             // z.string().email()
    | RoleName              // z.enum(['ADMIN', 'USER', 'SUPPORT'])
    | Count(least: int)     // z.preprocess(v => v ? Number(v) : undefined,
                            //   z.number().int().<bound>().optional())

  datatype Field = Field(key: string, kind: Kind, optional: bool, nullable: bool)

  predicate Accepts(env: Env, kind: Kind, v: Value) {
    match kind
    case Text(m) => v.Str? && |v.s| >= m
    case EmailText => v.Str? && env.isEmail(v.s)
    case RoleName => v.Str? && RoleOf(v.s).Some?
    case Count(_) => false
  }

  /** One field of `z.object(...)`: `Ok(None)` leaves the key out of the
      parsed data, `Err` is an issue on that field. */
  function ParseField(env: Env, f: Field, o: Option<Value>): Result<Option<Value>, string> {
    if f.kind.Count? then
      if !Truthy(o) then Ok(None)
      else
        var n := NumberValue(o.value);
        if n.Some? && n.value >= f.kind.least then Ok(Some(Num(n.value))) else Err(f.key)
    else if o.None? then
      if f.optional then Ok(None) else Err(f.key)
    else if o.value.Null? then
      if f.nullable then Ok(Some(Null)) else Err(f.key)
    else if Accepts(env, f.kind, o.value) then Ok(Some(o.value))
    else Err(f.key)
  }

  function Keys(fields: seq<Field>): set<string> {
    set i | 0 <= i < |fields| :: fields[i].key
  }

  predicate DistinctKeys(fields: seq<Field>) {
    forall i, j :: 0 <= i < j < |fields| ==> fields[i].key != fields[j].key
  }

  /** The fields after the first: still distinct, and none has the first
      one's key. */
  lemma TailFields(fields: seq<Field>)
    requires fields != [] && DistinctKeys(fields)
    ensures DistinctKeys(fields[1..]) && fields[0].key !in Keys(fields[1..])
    ensures Keys(fields) == {fields[0].key} + Keys(fields[1..])
    ensures forall i :: 1 <= i < |fields| ==> fields[i] == fields[1..][i - 1]
  {
    assert forall i :: 1 <= i < |fields| ==> fields[i] == fields[1..][i - 1];
    forall k | k in Keys(fields) ensures k in {fields[0].key} + Keys(fields[1..]) {
      var i :| 0 <= i < |fields| && fields[i].key == k;
      if i > 0 {
        assert fields[1..][i - 1].key == k;
      }
    }
  }

  /** `schema.safeParse(input)` for `z.object(fields)`: unknown keys are
      stripped, and every field at fault is reported. */
  function Parse(env: Env, fields: seq<Field>, input: Obj): (r: Result<Obj, set<string>>)
    requires DistinctKeys(fields)
    ensures r.Ok? <==> forall i :: 0 <= i < |fields| ==> ParseField(env, fields[i], Get(input, fields[i].key)).Ok?
    ensures r.Err? ==> forall k :: k in r.error <==>
      exists i :: 0 <= i < |fields| && fields[i].key == k && ParseField(env, fields[i], Get(input, k)).Err?
    ensures r.Ok? ==> r.value.Keys <= Keys(fields)
    ensures r.Ok? ==> forall i :: 0 <= i < |fields| ==>
      var p := ParseField(env, fields[i], Get(input, fields[i].key)).value;
      (fields[i].key in r.value <==> p.Some?) && (p.Some? ==> r.value[fields[i].key] == p.value)
  {
    if fields == [] then Ok(map[])
    else
      var f := fields[0];
      TailFields(fields);
      var rest := Parse(env, fields[1..], input);
      var here := ParseField(env, f, Get(input, f.key));
      match here
      case Err(_) =>
        FaultyKeysCons(env, fields, input, if rest.Err? then rest.error else {});
        Err({f.key} + (if rest.Err? then rest.error else {}))
      case Ok(o) =>
        if rest.Err? then FaultyKeysCons(env, fields, input, rest.error); rest
        else if o.Some? then Ok(rest.value[f.key := o.value])
        else Ok(rest.value)
  }

  /** The keys at fault in `fields` are those at fault in its tail, plus its
      first key when that field fails. */
  lemma FaultyKeysCons(env: Env, fields: seq<Field>, input: Obj, e: set<string>)
    requires fields != []
    requires forall k :: k in e <==>
      exists i :: 0 <= i < |fields[1..]| && fields[1..][i].key == k && ParseField(env, fields[1..][i], Get(input, k)).Err?
    ensures var here := ParseField(env, fields[0], Get(input, fields[0].key));
      forall k :: k in (if here.Err? then {fields[0].key} + e else e) <==>
        exists i :: 0 <= i < |fields| && fields[i].key == k && ParseField(env, fields[i], Get(input, k)).Err?
  {
    var here := ParseField(env, fields[0], Get(input, fields[0].key));
    var all := if here.Err? then {fields[0].key} + e else e;
    forall k ensures k in all <==>
      exists i :: 0 <= i < |fields| && fields[i].key == k && ParseField(env, fields[i], Get(input, k)).Err?
    {
      if k in all {
        if here.Err? && k == fields[0].key {
          assert ParseField(env, fields[0], Get(input, k)).Err?;
        } else {
          var i :| 0 <= i < |fields[1..]| && fields[1..][i].key == k && ParseField(env, fields[1..][i], Get(input, k)).Err?;
          assert fields[i + 1] == fields[1..][i];
        }
      }
      if exists i :: 0 <= i < |fields| && fields[i].key == k && ParseField(env, fields[i], Get(input, k)).Err? {
        var i :| 0 <= i < |fields| && fields[i].key == k && ParseField(env, fields[i], Get(input, k)).Err?;
        if i > 0 {
          assert fields[1..][i - 1] == fields[i];
        }
      }
    }
  }

  // ---------------------------------------------------------------------------
  // The three schemas

  const CreateFields: seq<Field> := [
    Field("name", Text(2), false, false),
    Field("email", EmailText, false, false),
    Field("password", Text(6), false, false),
    Field("role", RoleName, true, false),
    Field("phone", Text(0), true, true)]

  const UpdateFields: seq<Field> := [
    Field("name", Text(2), true, false),
    Field("email", EmailText, true, false),
    Field("password", Text(6), true, false),
    Field("role", RoleName, true, false),
    Field("phone", Text(0), true, true)]

  const QueryFields: seq<Field> := [
    Field("search", Text(0), true, false),
    Field("role", RoleName, true, false),
    Field("email", EmailText, true, false),
    Field("limit", Count(1), true, false),
    Field("offset", Count(0), true, false)]

  function UserCreate(env: Env, body: Obj): Result<Obj, set<string>> {
    Parse(env, CreateFields, body)
  }

  function UserUpdate(env: Env, body: Obj): Result<Obj, set<string>> {
    Parse(env, UpdateFields, body)
  }

  function UserQuery(env: Env, query: Obj): Result<Obj, set<string>> {
    Parse(env, QueryFields, query)
  }

  predicate IsText(o: Option<Value>, minLength: nat) {
    o.Some? && o.value.Str? && |o.value.s| >= minLength
  }

  predicate IsRole(o: Option<Value>) {
    o.Some? && o.value.Str? && RoleOf(o.value.s).Some?
  }

  predicate IsEmail(env: Env, o: Option<Value>) {
    o.Some? && o.value.Str? && env.isEmail(o.value.s)
  }

  predicate FieldOk(env: Env, f: Field, input: Obj) {
    ParseField(env, f, Get(input, f.key)).Ok?
  }

  lemma AllOfFive(env: Env, fields: seq<Field>, input: Obj)
    requires |fields| == 5
    ensures (forall i :: 0 <= i < |fields| ==> FieldOk(env, fields[i], input)) <==>
      && FieldOk(env, fields[0], input) && FieldOk(env, fields[1], input)
      && FieldOk(env, fields[2], input) && FieldOk(env, fields[3], input)
      && FieldOk(env, fields[4], input)
  {
  }

  /** A schema without preprocessed fields passes each accepted value
      through unchanged: the parsed data is the input without its unknown
      keys. */
  lemma ParseStripsUnknownKeys(env: Env, fields: seq<Field>, input: Obj)
    requires DistinctKeys(fields)
    requires forall i :: 0 <= i < |fields| ==> !fields[i].kind.Count?
    requires Parse(env, fields, input).Ok?
    ensures Parse(env, fields, input).value == map k | k in input && k in Keys(fields) :: input[k]
  {
    var r := Parse(env, fields, input).value;
    var m := map k | k in input && k in Keys(fields) :: input[k];
    forall k | k in m ensures k in r && r[k] == m[k] {
      var i :| 0 <= i < |fields| && fields[i].key == k;
      FieldPassesThrough(env, fields[i], input);
    }
    forall k | k in r ensures k in m {
      var i :| 0 <= i < |fields| && fields[i].key == k;
      FieldPassesThrough(env, fields[i], input);
    }
    assert r.Keys == m.Keys;
  }

  /** An accepted field that is not preprocessed is kept exactly when it
      is present, with its value unchanged. */
  lemma FieldPassesThrough(env: Env, f: Field, input: Obj)
    requires !f.kind.Count? && ParseField(env, f, Get(input, f.key)).Ok?
    ensures ParseField(env, f, Get(input, f.key)).value.Some? <==> f.key in input
    ensures f.key in input ==> ParseField(env, f, Get(input, f.key)).value == Some(input[f.key])
  {
  }

  const UserKeys: set<string> := {"name", "email", "password", "role", "phone"}

  lemma BodyFieldsFacts(fields: seq<Field>)
    requires fields == CreateFields || fields == UpdateFields
    ensures DistinctKeys(fields) && Keys(fields) == UserKeys
    ensures forall i :: 0 <= i < |fields| ==> !fields[i].kind.Count?
  {
    assert fields[0].key == "name" && fields[1].key == "email";
    assert fields[2].key == "password" && fields[3].key == "role";
    assert fields[4].key == "phone";
  }

  /** A signup body is accepted exactly when the name has at least two
      characters, the e-mail is well formed, the password has at least six
      characters, a role (if any) is one of the three, and a phone (if any)
      is a string or `null`. */
  lemma UserCreateAccepts(env: Env, body: Obj)
    ensures UserCreate(env, body).Ok? <==>
      && IsText(Get(body, "name"), 2)
      && IsEmail(env, Get(body, "email"))
      && IsText(Get(body, "password"), 6)
      && ("role" in body ==> IsRole(Get(body, "role")))
      && ("phone" in body ==> body["phone"].Null? || body["phone"].Str?)
  {
    AllOfFive(env, CreateFields, body);
    assert FieldOk(env, CreateFields[0], body) <==> IsText(Get(body, "name"), 2);
    assert FieldOk(env, CreateFields[1], body) <==> IsEmail(env, Get(body, "email"));
    assert FieldOk(env, CreateFields[2], body) <==> IsText(Get(body, "password"), 6);
    assert FieldOk(env, CreateFields[3], body) <==> ("role" in body ==> IsRole(Get(body, "role")));
    assert FieldOk(env, CreateFields[4], body) <==> ("phone" in body ==> body["phone"].Null? || body["phone"].Str?);
  }

  /** The accepted data is the body without its other keys. */
  lemma UserCreateData(env: Env, body: Obj)
    requires UserCreate(env, body).Ok?
    ensures UserCreate(env, body).value == map k | k in body && k in UserKeys :: body[k]
  {
    BodyFieldsFacts(CreateFields);
    ParseStripsUnknownKeys(env, CreateFields, body);
  }

  /** Every update field is optional: the empty body is accepted. */
  lemma UserUpdateAcceptsEmpty(env: Env)
    ensures UserUpdate(env, map[]) == Ok(map[])
  {
    AllOfFive(env, UpdateFields, map[]);
    BodyFieldsFacts(UpdateFields);
    ParseStripsUnknownKeys(env, UpdateFields, map[]);
  }

  /** An update body is accepted exactly when each field it has passes the
      signup rule for that field. */
  lemma UserUpdateAccepts(env: Env, body: Obj)
    ensures UserUpdate(env, body).Ok? <==>
      && ("name" in body ==> IsText(Get(body, "name"), 2))
      && ("email" in body ==> IsEmail(env, Get(body, "email")))
      && ("password" in body ==> IsText(Get(body, "password"), 6))
      && ("role" in body ==> IsRole(Get(body, "role")))
      && ("phone" in body ==> body["phone"].Null? || body["phone"].Str?)
  {
    AllOfFive(env, UpdateFields, body);
    assert FieldOk(env, UpdateFields[0], body) <==> ("name" in body ==> IsText(Get(body, "name"), 2));
    assert FieldOk(env, UpdateFields[1], body) <==> ("email" in body ==> IsEmail(env, Get(body, "email")));
    assert FieldOk(env, UpdateFields[2], body) <==> ("password" in body ==> IsText(Get(body, "password"), 6));
    assert FieldOk(env, UpdateFields[3], body) <==> ("role" in body ==> IsRole(Get(body, "role")));
    assert FieldOk(env, UpdateFields[4], body) <==> ("phone" in body ==> body["phone"].Null? || body["phone"].Str?);
  }

  /** The accepted data is the body without its other keys. */
  lemma UserUpdateData(env: Env, body: Obj)
    requires UserUpdate(env, body).Ok?
    ensures UserUpdate(env, body).value == map k | k in body && k in UserKeys :: body[k]
  {
    BodyFieldsFacts(UpdateFields);
    ParseStripsUnknownKeys(env, UpdateFields, body);
  }

  /** `limit` and `offset`: a falsy value is dropped; any other must read as
      an integer, at least 1 for `limit` and at least 0 for `offset`, and is
      replaced by that number. */
  lemma UserQueryPaging(env: Env, query: Obj)
    requires UserQuery(env, query).Ok?
    ensures var q := UserQuery(env, query).value;
      && (!Truthy(Get(query, "limit")) ==> "limit" !in q)
      && (Truthy(Get(query, "limit")) ==>
            NumberValue(query["limit"]).Some? && NumberValue(query["limit"]).value >= 1
            && Get(q, "limit") == Some(Num(NumberValue(query["limit"]).value)))
      && (!Truthy(Get(query, "offset")) ==> "offset" !in q)
      && (Truthy(Get(query, "offset")) ==>
            NumberValue(query["offset"]).Some? && NumberValue(query["offset"]).value >= 0
            && Get(q, "offset") == Some(Num(NumberValue(query["offset"]).value)))
  {
    assert QueryFields[3].key == "limit" && QueryFields[4].key == "offset";
    assert FieldOk(env, QueryFields[3], query);
    assert FieldOk(env, QueryFields[4], query);
  }

  /** A query the schema accepts holds a string `search`, a valid `role`
      and a well-formed `email` whenever it holds them at all, each as
      given. */
  lemma UserQueryFilters(env: Env, query: Obj)
    requires UserQuery(env, query).Ok?
    ensures var q := UserQuery(env, query).value;
      && ("search" in q ==> q["search"].Str? && Get(query, "search") == Some(q["search"]))
      && ("role" in q ==> IsRole(Get(q, "role")) && Get(query, "role") == Some(q["role"]))
      && ("email" in q ==> IsEmail(env, Get(q, "email")) && Get(query, "email") == Some(q["email"]))
  {
    assert QueryFields[0].key == "search" && QueryFields[1].key == "role" && QueryFields[2].key == "email";
    assert FieldOk(env, QueryFields[0], query);
    assert FieldOk(env, QueryFields[1], query);
    assert FieldOk(env, QueryFields[2], query);
    FieldPassesThrough(env, QueryFields[0], query);
    FieldPassesThrough(env, QueryFields[1], query);
    FieldPassesThrough(env, QueryFields[2], query);
  }
}
