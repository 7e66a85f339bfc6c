/**
 * The authentication middleware (src/middleware/auth.ts) as decisions:
 * each middleware either answers the request with an error status and body
 * (Deny) or passes the possibly updated request on to `next()` (Next).
 * Verifying a JSON Web Token is an oracle `verify`: it gives the decoded
 * payload, or None when `jwt.verify` reports an error.
 */
module Auth {
  import opened Wrappers
  import opened Strings

  datatype UserPayload = UserPayload(role: string)

  /** The parts of an Express request the middleware read and write. */
  datatype Request = Request(authorization: Option<string>, user: Option<UserPayload>)

  /** The body built by `apiError(message, {}, code)`. */
  datatype ApiError = ApiError(message: string, code: nat)

  /** Deny: `res.status(status).json(body)` and `next` is not called; Next: `next()` once. */
  datatype Outcome = Deny(status: nat, body: ApiError) | Next(req: Request)

  /** `authHeader && authHeader.split(' ')[1]`, with a falsy result read as no token. */
  function ExtractToken(header: Option<string>): Option<string>
  {
    match header
    case None => None
    case Some(h) =>
      var parts := Split(h, ' ');
      if |parts| > 1 && parts[1] != "" then Some(parts[1]) else None
  }

  /** `authenticateToken`. */
  function AuthenticateToken(req: Request, verify: string -> Option<UserPayload>): Outcome
  {
    match ExtractToken(req.authorization)
    case None => Deny(401, ApiError("Token not found", 401))
    case Some(token) =>
      match verify(token)
      case None => Deny(403, ApiError("Unauthorized", 401))
      case Some(user) => Next(req.(user := Some(user)))
  }

  /** `checkRole(roles)`. */
  function CheckRole(roles: seq<string>, req: Request): Outcome
  {
    if req.user.None? || req.user.value.role !in roles then Deny(403, ApiError("Access denied", 401))
    else Next(req)
  }

  /** Running a second middleware only when the first calls `next`. */
  function AndThen(o: Outcome, mw: Request -> Outcome): Outcome
  {
    match o
    case Deny(_, _) => o
    case Next(r) => mw(r)
  }

  /**
   * The token is the second space-separated word, whatever the first word
   * is: the scheme (`Bearer`) is not checked.
   */
  lemma {:induction false} TokenAfterScheme(scheme: string, token: string, rest: string)
    requires ' ' !in scheme && ' ' !in token && token != ""
    requires rest == "" || rest[0] == ' '
    ensures ExtractToken(Some(scheme + " " + token + rest)) == Some(token)
  {
    var h := scheme + " " + token + rest;
    assert h == scheme + [' '] + (token + rest);
    SplitAppend(scheme, token + rest, ' ');
    SplitNoSep(scheme, ' ');
    if rest == "" {
      assert token + rest == token;
      SplitNoSep(token, ' ');
    } else {
      assert token + rest == token + [' '] + rest[1..];
      SplitAppend(token, rest[1..], ' ');
      SplitNoSep(token, ' ');
    }
  }

  /**
   * Conversely, an extracted token is a non-empty, space-free word that
   * follows the first space of the header and is followed by the end of the
   * header or another space.
   */
  lemma {:induction false} TokenFound(h: string) returns (scheme: string, rest: string)
    requires ExtractToken(Some(h)).Some?
    ensures var token := ExtractToken(Some(h)).value;
      && h == scheme + " " + token + rest
      && ' ' !in scheme && ' ' !in token && token != ""
      && (rest == "" || rest[0] == ' ')
  {
    var parts := Split(h, ' ');
    JoinSplit(h, ' ');
    scheme := parts[0];
    var token := parts[1];
    if |parts| == 2 {
      rest := "";
      assert Join(parts[1..], ' ') == token;
    } else {
      rest := " " + Join(parts[2..], ' ');
      assert Join(parts[1..], ' ') == token + [' '] + Join(parts[2..], ' ');
    }
    assert h == scheme + [' '] + Join(parts[1..], ' ');
  }

  /** No header, a single word, or a double space after the first word: no token. */
  lemma {:induction false} NoToken(word: string, tail: string)
    requires ' ' !in word
    ensures ExtractToken(None) == None
    ensures ExtractToken(Some(word)) == None
    ensures ExtractToken(Some(word + "  " + tail)) == None
    ensures ExtractToken(Some(word + " ")) == None
  {
    SplitNoSep(word, ' ');
    assert word + "  " + tail == word + [' '] + ([' '] + tail);
    SplitAppend(word, [' '] + tail, ' ');
    assert ([' '] + tail)[1..] == tail;
    assert word + " " == word + [' '] + "";
    SplitAppend(word, "", ' ');
  }

  /**
   * `authenticateToken` calls `next` exactly when there is a token and it
   * verifies, and then only `req.user` changes; a missing token is a 401,
   * a token that fails verification a 403, and both bodies carry code 401.
   */
  lemma AuthenticateDecision(req: Request, verify: string -> Option<UserPayload>)
    ensures var o := AuthenticateToken(req, verify);
      var token := ExtractToken(req.authorization);
      && (o.Next? <==> token.Some? && verify(token.value).Some?)
      && (o.Next? ==> o.req.authorization == req.authorization && o.req.user == verify(token.value))
      && (token.None? ==> o == Deny(401, ApiError("Token not found", 401)))
      && (token.Some? && verify(token.value).None? ==> o == Deny(403, ApiError("Unauthorized", 401)))
  {
  }

  /**
   * `checkRole(roles)` passes the request on unchanged exactly when a user is
   * set and their role is one of `roles`; otherwise it denies with 403.
   */
  lemma CheckRoleDecision(roles: seq<string>, req: Request)
    ensures var o := CheckRole(roles, req);
      && (o.Next? <==> req.user.Some? && req.user.value.role in roles)
      && (o.Next? ==> o.req == req)
      && (o.Deny? ==> o == Deny(403, ApiError("Access denied", 401)))
  {
  }

  /** `checkRole([])` lets nobody through. */
  lemma CheckRoleEmpty(req: Request)
    ensures CheckRole([], req).Deny?
  {
  }

  /**
   * The guard of the administrative routes, `authenticateToken` then
   * `checkRole(['superadmin'])`: the request reaches the handler exactly when
   * its token verifies to a payload whose role is 'superadmin'.
   */
  lemma SuperadminGuard(req: Request, verify: string -> Option<UserPayload>)
    ensures var o := AndThen(AuthenticateToken(req, verify), r => CheckRole(["superadmin"], r));
      var token := ExtractToken(req.authorization);
      o.Next? <==> token.Some? && verify(token.value).Some? && verify(token.value).value.role == "superadmin"
  {
  }
}
