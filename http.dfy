/** What a handler sees of Express and of the libraries it calls: the
    request object the middleware chain mutates, the reply it sends, the
    errors it may catch, and the external functions (bcrypt, jsonwebtoken,
    zod's e-mail check, date parsing) as uninterpreted parameters. */
module Http {
  import opened Js
  import opened Entities

  /** The JSON body of a reply. */
  datatype Content =
    | ErrorBody(error: string)                        // { error }
    | ValidationBody(details: set<string>)            // { error: 'validation', details }, details by field
    | MessageBody(message: string)                    // { message }
    | RowBody(row: Obj)                               // one row, as selected
    | RowsBody(rows: seq<Obj>)                        // a list of rows
    | LoginBody(token: string, user: Obj)             // { token, user }
    | ResetLinkBody(message: string, resetLink: string)
    | ClientDeletedBody(message: string, client: Obj) // { message, client }
    | MeBody(user: Obj)                               // { user }

  /** What the reply does to the `token` cookie. */
  datatype Cookie = Keep | SetToken(token: string) | ClearToken

  /** Exactly one reply is sent per request: a handler returns it. */
  datatype Reply = Reply(status: int, content: Content, cookie: Cookie)

  function Json(status: int, content: Content): Reply {
    Reply(status, content, Keep)
  }

  /** The identity `requireAuth` attaches as `req.user`. */
  datatype Identity = Identity(id: Id, role: Option<Role>)

  /** A middleware either calls `next` or answers and stops the chain. */
  datatype Step = Next | Halt(reply: Reply)

  /** The claims of a signed token: `sub` and, for login tokens, `role`. */
  datatype Claims = Claims(sub: Id, role: Option<Role>)

  /** The external functions. `verify` stands for `jwt.verify` with the
      server's secret (`None`: it throws); `compare` and `hash` for bcrypt;
      `isEmail` for zod's e-mail pattern; `parseDate` for `Date.parse` on a
      string (`None`: an invalid date); `appUrl` for `APP_URL`. Token expiry
      is part of `verify`. */
  datatype Env = Env(
    isEmail: string -> bool,
    hash: string -> string,
    compare: (string, string) -> bool,
    sign: Claims -> string,
    verify: string -> Option<Claims>,
    parseDate: string -> Option<int>,
    appUrl: Option<string>)

  /** A thrown error: Prisma's known request errors carry a `code`; a
      TypeError, a Prisma validation error or a plain `Error` carry none. */
  datatype Failure = Failure(code: Option<string>, what: string)

  const UniqueViolation: Failure := Failure(Some("P2002"), "Unique constraint failed")
  const RecordMissing: Failure := Failure(Some("P2025"), "Record to update or delete does not exist")
  /** Any error without a code; they all get the same answer. */
  const Uncoded: Failure := Failure(None, "TypeError or invalid argument")

  /** The time of `new Date(v)`; `None` is an Invalid Date, which the store
      refuses. `null` is the epoch, a boolean is 0 or 1 ms, a date is copied;
      composites are not modelled and read as invalid. */
  function DateOf(env: Env, v: Value): (d: Option<int>)
    ensures d.Some? ==> -8640000000000000 <= d.value <= 8640000000000000
  {
    var raw := match v
      case Null => Some(0)
      case Bool(b) => Some(if b then 1 else 0)
      case Num(n) => Some(n)
      case NaN => None
      case Str(s) => env.parseDate(s)
      case Date(t) => t
      case Composite => None;
    if raw.Some? && -8640000000000000 <= raw.value <= 8640000000000000 then raw else None
  }

  /** `new Date(v)`. */
  function NewDate(env: Env, v: Value): Value {
    Date(DateOf(env, v))
  }

  /** The Express request, as far as the middleware and handlers use it:
      the `Authorization` header, the `token` cookie and the query string
      are read-only; `req.user`, `req.body` and `req.parsedQuery` are
      written by the middleware. */
  class Request {
    const authorization: Option<string>
    const cookieToken: Option<string>
    const query: Option<Obj>
    var body: Obj
    var user: Option<Identity>
    var parsedQuery: Option<Obj>

    constructor(authorization: Option<string>, cookieToken: Option<string>,
                query: Option<Obj>, body: Obj)
      ensures this.authorization == authorization && this.cookieToken == cookieToken
      ensures this.query == query && this.body == body
      ensures user == None && parsedQuery == None
    {
      this.authorization := authorization;
      this.cookieToken := cookieToken;
      this.query := query;
      this.body := body;
      user := None;
      parsedQuery := None;
    }

    /** `req.parsedQuery || req.query || {}`. */
    function Query(): Obj
      reads this
    {
      if parsedQuery.Some? then parsedQuery.value
      else if query.Some? then query.value
      else map[]
    }
  }
}
