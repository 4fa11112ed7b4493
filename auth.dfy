/** The authentication middleware (src/middleware/auth.js): reading a
    Bearer token from the `Authorization` header, attaching the decoded user
    to the request, and `requireAuth`. The scheme name is compared
    case-insensitively, as section 11.1 of RFC 9110 asks; unlike the
    `1*SP` of section 2.1 of RFC 6750, exactly one space must separate the
    scheme from the token. `jwt.verify` is an oracle. */
module Auth {
  import opened Values
  import opened Strings

  /** What the header parsing decides. */
  datatype Header = NoHeader | Malformed | NotBearer | Bearer(token: string)

  /** The claims `jwt.verify` decodes from a valid token. */
  datatype Claims = Claims(id: Value, role: Value)

  /** `req.user`: `{ id, role }`. */
  datatype User = User(id: Value, role: Value)

  /** `jwt.verify(token, secret)`: the decoded claims, None when it throws. */
  type Verifier = (string, string) -> Option<Claims>

  const DefaultSecret := "please-change-this-secret"

  /** `process.env.JWT_SECRET || 'please-change-this-secret'`: the secret is
      never empty. */
  function JwtSecret(env: map<string, string>): (secret: string)
    ensures secret != ""
    ensures "JWT_SECRET" in env && env["JWT_SECRET"] != "" ==> secret == env["JWT_SECRET"]
    ensures !("JWT_SECRET" in env && env["JWT_SECRET"] != "") ==> secret == DefaultSecret
  {
    if "JWT_SECRET" in env && env["JWT_SECRET"] != "" then env["JWT_SECRET"] else DefaultSecret
  }

  /** The header checks in order: absent or empty, not exactly two pieces
      around single spaces, a scheme other than `Bearer` in any case. */
  function ParseAuthorization(h: Option<string>): (r: Header)
    ensures r.Bearer? ==> ' ' !in r.token
  {
    if h.None? || h.value == "" then NoHeader
    else
      var parts := Split(h.value, ' ');
      if |parts| != 2 then Malformed
      else if !EqualsIgnoreCase(parts[0], "Bearer") then NotBearer
      else Bearer(parts[1])
  }

  /** `req.user` after the middleware: set to the decoded id and role for a
      Bearer token the verifier accepts, otherwise left as it was. */
  function UserAfter(user: Option<User>, h: Option<string>, env: map<string, string>, verify: Verifier): (u: Option<User>)
    ensures !ParseAuthorization(h).Bearer? ==> u == user
    ensures ParseAuthorization(h).Bearer? && verify(ParseAuthorization(h).token, JwtSecret(env)).None? ==> u == user
    ensures u != user ==> u.Some?
  {
    var p := ParseAuthorization(h);
    if p.Bearer? && verify(p.token, JwtSecret(env)).Some? then
      var c := verify(p.token, JwtSecret(env)).value;
      Some(User(c.id, c.role))
    else user
  }

  /** `req.user && req.user.id`. */
  predicate Authenticated(user: Option<User>)
  {
    user.Some? && Truthy(user.value.id)
  }

  /** The reply `requireAuth` sends instead of calling `next()`. */
  datatype Reply = Reply(status: nat, error: string)

  const AuthenticationRequired := Reply(401, "authentication required")

  /** A request as the two middlewares see it: the header, `req.user`, how
      often `next()` was called and the reply sent, if any. */
  class Request {
    var authorization: Option<string>
    var user: Option<User>
    var nextCalls: nat
    var reply: Option<Reply>

    constructor(authorization: Option<string>)
      ensures this.authorization == authorization && user.None? && nextCalls == 0 && reply.None?
    {
      this.authorization := authorization;
      user := None;
      nextCalls := 0;
      reply := None;
    }

    /** `authMiddleware`: never replies, calls `next()` exactly once. */
    method AuthMiddleware(env: map<string, string>, verify: Verifier)
      modifies this
      ensures authorization == old(authorization) && reply == old(reply)
      ensures nextCalls == old(nextCalls) + 1
      ensures user == UserAfter(old(user), authorization, env, verify)
    {
      var p := ParseAuthorization(authorization);
      if p.Bearer? {
        var decoded := verify(p.token, JwtSecret(env));
        if decoded.Some? {
          user := Some(User(decoded.value.id, decoded.value.role));
        }
      }
      nextCalls := nextCalls + 1;
    }

    /** `requireAuth`: `next()` for an authenticated request, otherwise the
        401 reply. */
    method RequireAuth()
      modifies this
      ensures authorization == old(authorization) && user == old(user)
      ensures Authenticated(user) ==> nextCalls == old(nextCalls) + 1 && reply == old(reply)
      ensures !Authenticated(user) ==> nextCalls == old(nextCalls) && reply == Some(AuthenticationRequired)
    {
      if user.Some? && Truthy(user.value.id) {
        nextCalls := nextCalls + 1;
      } else {
        reply := Some(AuthenticationRequired);
      }
    }
  }

  // ---------------------------------------------------------------- lemmas

  /** A header `<scheme> <token>` with a single space, a space-free token
      and a scheme that is `Bearer` in any case yields that token. */
  lemma BearerRoundTrip(scheme: string, token: string)
    requires ' ' !in scheme && ' ' !in token
    requires EqualsIgnoreCase(scheme, "Bearer")
    ensures ParseAuthorization(Some(scheme + " " + token)) == Bearer(token)
  {
    SplitAtSeparator(scheme, token, ' ');
    SplitNoSeparator(token, ' ');
    assert scheme + " " + token == scheme + [' '] + token;
  }

  /** Conversely, a token is only ever read from a header of that shape. */
  lemma BearerShape(h: Option<string>)
    requires ParseAuthorization(h).Bearer?
    ensures exists scheme :: (' ' !in scheme && EqualsIgnoreCase(scheme, "Bearer")
                              && h == Some(scheme + " " + ParseAuthorization(h).token))
  {
    var parts := Split(h.value, ' ');
    JoinSplit(h.value, ' ');
    assert Join(parts, ' ') == parts[0] + [' '] + Join(parts[1..], ' ');
    assert parts[1..] == [parts[1]];
    assert h.value == parts[0] + " " + parts[1];
  }

  /** A header with two spaces between its pieces, or with a space inside
      the token, is malformed: only a single space separates scheme and
      token. */
  lemma ExtraSpaceMalformed(scheme: string, token: string, t1: string, t2: string)
    requires ' ' !in scheme && ' ' !in t1
    ensures ParseAuthorization(Some(scheme + "  " + token)) == Malformed
    ensures ParseAuthorization(Some(scheme + " " + t1 + " " + t2)) == Malformed
  {
    SplitAtSeparator(scheme, " " + token, ' ');
    SplitAtSeparator("", token, ' ');
    assert scheme + "  " + token == scheme + [' '] + (" " + token);
    assert " " + token == "" + [' '] + token;
    SplitAtSeparator(scheme, t1 + " " + t2, ' ');
    SplitAtSeparator(t1, t2, ' ');
    assert scheme + " " + t1 + " " + t2 == scheme + [' '] + (t1 + " " + t2);
    assert t1 + " " + t2 == t1 + [' '] + t2;
  }

  /** The user is what the middleware sets it to: exactly the decoded id
      and role when a Bearer token verifies under the configured secret, and
      otherwise whatever it was before (no header, a malformed header, another
      scheme, or a token the verifier refuses). */
  lemma UserDecision(user: Option<User>, h: Option<string>, env: map<string, string>, verify: Verifier)
    ensures UserAfter(user, h, env, verify) != user ==>
      ParseAuthorization(h).Bearer? && verify(ParseAuthorization(h).token, JwtSecret(env)).Some?
    ensures (ParseAuthorization(h).Bearer? && verify(ParseAuthorization(h).token, JwtSecret(env)).Some?) ==>
      var c := verify(ParseAuthorization(h).token, JwtSecret(env)).value;
      UserAfter(user, h, env, verify) == Some(User(c.id, c.role))
    ensures (h.None? || h == Some("")) ==> UserAfter(user, h, env, verify) == user
  {
  }

  /** A request that starts with no user gets one exactly when its header
      carries a Bearer token the verifier accepts. */
  lemma UserSetIff(h: Option<string>, env: map<string, string>, verify: Verifier)
    ensures UserAfter(None, h, env, verify).Some? <==>
      (ParseAuthorization(h).Bearer? && verify(ParseAuthorization(h).token, JwtSecret(env)).Some?)
  {
  }

  /** `requireAuth` lets a request through only with a truthy user id: a
      user whose id is missing, 0 or the empty string is refused. */
  lemma RequireAuthRefuses(role: Value)
    ensures !Authenticated(None)
    ensures !Authenticated(Some(User(Undefined, role)))
    ensures !Authenticated(Some(User(Num(0), role)))
    ensures !Authenticated(Some(User(Str(""), role)))
    ensures Authenticated(Some(User(Num(1), role)))
  {
  }
}
