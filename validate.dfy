/** `validateBody(schema)` and `validateQuery(schema)`: middleware that runs
    a schema's `safeParse` on the request and either answers 400 or stores
    the parsed data and calls `next`. */
module Validate {
  import opened Js
  import opened Http

  /** A schema's `safeParse`: the parsed data, or the fields at fault
      (`error.format()`, keyed by field). */
  type Schema = Obj -> Result<Obj, set<string>>

  function ValidationFailed(fields: set<string>): Reply {
    Json(400, ValidationBody(fields))
  }

  /** On failure the body is left as it was and the request is answered;
      on success the body becomes the parsed data and `next` runs. */
  method ValidateBody(req: Request, schema: Schema) returns (step: Step)
    modifies req
    ensures req.user == old(req.user) && req.parsedQuery == old(req.parsedQuery)
    ensures match schema(old(req.body))
      case Err(fields) => step == Halt(ValidationFailed(fields)) && req.body == old(req.body)
      case Ok(data) => step == Next && req.body == data
  {
    var parsed := schema(req.body);
    match parsed
    case Err(fields) =>
      step := Halt(ValidationFailed(fields));
    case Ok(data) =>
      req.body := data;
      step := Next;
  }

  /** `req.query || {}`. */
  function QueryOrEmpty(query: Option<Obj>): Obj {
    if query.Some? then query.value else map[]
  }

  /** The parsed query goes to `req.parsedQuery`; `req.query` itself is
      never written. Afterwards the handler's `req.parsedQuery || req.query
      || {}` reads the parsed data. */
  method ValidateQuery(req: Request, schema: Schema) returns (step: Step)
    modifies req
    ensures req.user == old(req.user) && req.body == old(req.body)
    ensures match schema(QueryOrEmpty(req.query))
      case Err(fields) => step == Halt(ValidationFailed(fields)) && req.parsedQuery == old(req.parsedQuery)
      case Ok(data) => step == Next && req.parsedQuery == Some(data) && req.Query() == data
  {
    var parsed := schema(QueryOrEmpty(req.query));
    match parsed
    case Err(fields) =>
      step := Halt(ValidationFailed(fields));
    case Ok(data) =>
      req.parsedQuery := Some(data);
      step := Next;
  }
}
