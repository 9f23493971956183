/** `requireAuth`: the middleware that reads a token from the
    `Authorization: Bearer <token>` header or, failing that, from the
    `token` cookie, verifies it and attaches `{ id: sub, role }` to the
    request. */
module RequireAuth {
  import opened Js
  import opened Entities
  import opened Http

  // ---------------------------------------------------------------------------
  // The pattern /^Bearer\s+(.+)$/i

  predicate NoLineTerminator(s: string) {
    forall i :: 0 <= i < |s| ==> !IsLineTerminator(s[i])
  }

  /** The length of the run of `\s` characters `s` starts with. */
  function SpaceRun(s: string): (n: nat)
    ensures n <= |s| && AllSpace(s[..n])
    ensures n < |s| ==> !IsSpace(s[n])
  {
    if s == [] || !IsSpace(s[0]) then 0
    else
      var n := 1 + SpaceRun(s[1..]);
      assert s[..n] == [s[0]] + s[1..][..n - 1];
      n
  }

  /** One way of matching the pattern against `h`, with the capture group
      starting at `k`: six letters spelling "bearer" in any case, a
      non-empty run of `\s`, then a non-empty remainder without line
      terminators (`.` does not match them, and without the `m` flag `$` is
      the end of the input). */
  ghost predicate BearerSplit(h: string, k: int) {
    && 7 <= k < |h|
    && Lower(h[..6]) == "bearer"
    && AllSpace(h[6..k])
    && NoLineTerminator(h[k..])
  }

  /** `match[1]` of `h.match(/^Bearer\s+(.+)$/i)`, or `None` when it does not
      match. `\s+` is greedy: it takes the whole run of spaces unless that
      leaves nothing for `(.+)`, in which case it gives back one. */
  function BearerToken(h: string): (t: Option<string>)
    ensures t.Some? ==> t.value != []
  {
    if |h| < 8 || Lower(h[..6]) != "bearer" || !IsSpace(h[6]) then None
    else
      var k := 6 + SpaceRun(h[6..]);
      if k < |h| then
        if NoLineTerminator(h[k..]) then Some(h[k..]) else None
      else if !IsLineTerminator(h[|h| - 1]) then Some(h[|h| - 1..])
      else None
  }

  /** `BearerToken` is the pattern: it answers exactly when some way of
      matching exists, and then it captures from the latest possible start,
      as the greedy `\s+` does. */
  lemma BearerTokenIsMatch(h: string)
    ensures BearerToken(h).None? <==> forall k :: !BearerSplit(h, k)
    ensures BearerToken(h).Some? ==>
      exists k :: BearerSplit(h, k) && BearerToken(h).value == h[k..]
        && forall j :: BearerSplit(h, j) ==> j <= k
  {
    if |h| < 8 || Lower(h[..6]) != "bearer" {
    } else if !IsSpace(h[6]) {
      forall k | 7 <= k < |h| ensures !AllSpace(h[6..k]) {
        assert h[6..k][0] == h[6];
      }
    } else {
      var n := SpaceRun(h[6..]);
      var k := 6 + n;
      assert AllSpace(h[6..k]) by {
        assert h[6..k] == h[6..][..n];
      }
      // no split runs its spaces past the end of the run
      assert forall j :: BearerSplit(h, j) ==> j <= k;
      if k < |h| {
        assert n >= 1 by {
          assert h[6..][0] == h[6];
        }
        if !NoLineTerminator(h[k..]) {
          var p :| 0 <= p < |h[k..]| && IsLineTerminator(h[k..][p]);
          forall j | 7 <= j <= k ensures !NoLineTerminator(h[j..]) {
            assert h[j..][k - j + p] == h[k..][p];
          }
        } else {
          assert BearerSplit(h, k);
        }
      } else {
        var spaces := h[6..|h| - 1];
        forall i | 0 <= i < |spaces| ensures IsSpace(spaces[i]) {
          assert spaces[i] == h[6..k][i];
        }
        if IsLineTerminator(h[|h| - 1]) {
          forall j | 7 <= j < |h| ensures !NoLineTerminator(h[j..]) {
            assert h[j..][|h| - 1 - j] == h[|h| - 1];
          }
        } else {
          assert BearerSplit(h, |h| - 1);
        }
      }
    }
  }

  /** "Bearer", in any case, then spaces, then a token that neither starts
      with a space nor holds a line break: the token is the whole remainder. */
  lemma BearerRemainder(scheme: string, spaces: string, token: string)
    requires Lower(scheme) == "bearer"
    requires spaces != [] && AllSpace(spaces)
    requires token != [] && !IsSpace(token[0]) && NoLineTerminator(token)
    ensures BearerToken(scheme + spaces + token) == Some(token)
  {
    var h := scheme + spaces + token;
    assert h[..6] == scheme;
    assert h[6..] == spaces + token;
    assert h[6] == spaces[0];
    SpaceRunOf(spaces, token);
    assert h[6 + |spaces|..] == token;
  }

  lemma {:induction false} SpaceRunOf(spaces: string, rest: string)
    requires AllSpace(spaces)
    requires rest != [] && !IsSpace(rest[0])
    ensures SpaceRun(spaces + rest) == |spaces|
  {
    if spaces != [] {
      assert (spaces + rest)[1..] == spaces[1..] + rest;
      SpaceRunOf(spaces[1..], rest);
    } else {
      assert spaces + rest == rest;
    }
  }

  // ---------------------------------------------------------------------------
  // Where the token comes from

  /** `req.cookies.token` is used only when the header does not match the
      pattern, and only when it is truthy. */
  function TokenOf(authorization: Option<string>, cookie: Option<string>): (t: Option<string>)
    ensures t.Some? ==> t.value != []
    ensures var h := if authorization.Some? then authorization.value else "";
      && (BearerToken(h).Some? ==> t == BearerToken(h))
      && (BearerToken(h).None? ==> (t.Some? <==> cookie.Some? && cookie.value != []))
      && (BearerToken(h).None? && t.Some? ==> t == cookie)
  {
    var h := if authorization.Some? then authorization.value else "";
    var m := BearerToken(h);
    if m.Some? then m
    else if cookie.Some? && cookie.value != "" then cookie
    else None
  }

  /** A header under any other scheme, such as `Basic x`, is ignored in
      favour of the cookie. */
  lemma OtherSchemeFallsBackToCookie(authorization: string, cookie: string)
    requires |authorization| < 6 || Lower(authorization[..6]) != "bearer"
    requires cookie != ""
    ensures TokenOf(Some(authorization), Some(cookie)) == Some(cookie)
  {
  }

  /** A Bearer header wins over the cookie. */
  lemma HeaderWinsOverCookie(authorization: string, cookie: Option<string>)
    requires BearerToken(authorization).Some?
    ensures TokenOf(Some(authorization), cookie) == BearerToken(authorization)
  {
  }

  // ---------------------------------------------------------------------------
  // The middleware

  datatype AuthResult = Authenticated(user: Identity) | Rejected(reply: Reply)

  const MissingToken: Reply := Json(401, ErrorBody("Missing Authorization token"))
  const InvalidToken: Reply := Json(401, ErrorBody("Invalid or expired token"))

  /** The decision `requireAuth` takes for a request. */
  function Authenticate(authorization: Option<string>, cookie: Option<string>, env: Env): (r: AuthResult)
    ensures r == Rejected(MissingToken) <==> TokenOf(authorization, cookie).None?
    ensures r == Rejected(InvalidToken) <==>
      TokenOf(authorization, cookie).Some? && env.verify(TokenOf(authorization, cookie).value).None?
    ensures r.Authenticated? <==>
      TokenOf(authorization, cookie).Some? && env.verify(TokenOf(authorization, cookie).value).Some?
    ensures r.Authenticated? ==>
      var claims := env.verify(TokenOf(authorization, cookie).value).value;
      r.user == Identity(claims.sub, claims.role)
  {
    var token := TokenOf(authorization, cookie);
    if token.None? then Rejected(MissingToken)
    else
      var payload := env.verify(token.value);
      if payload.None? then Rejected(InvalidToken)
      else Authenticated(Identity(payload.value.sub, payload.value.role))
  }

  /** `requireAuth(req, res, next)`: on success `req.user` is set and `next`
      runs once; otherwise the request is answered with 401 and left as it
      was. */
  method RequireAuth(req: Request, env: Env) returns (step: Step)
    modifies req
    ensures req.body == old(req.body) && req.parsedQuery == old(req.parsedQuery)
    ensures match Authenticate(req.authorization, req.cookieToken, env)
      case Rejected(reply) => step == Halt(reply) && req.user == old(req.user)
      case Authenticated(user) => step == Next && req.user == Some(user)
  {
    var auth := Authenticate(req.authorization, req.cookieToken, env);
    match auth
    case Rejected(reply) =>
      step := Halt(reply);
    case Authenticated(user) =>
      req.user := Some(user);
      step := Next;
  }
}
