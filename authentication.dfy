/** The `authenticate` middleware: the bearer token is taken from the
    `Authorization` header, refused if revoked, then verified with the access
    secret; on success the request carries the token's identity. Signature
    and expiry checking is the JWT library's and is given as a function from
    a token to its payload (or nothing when `jwt.verify` throws). */
module Authentication {
  import opened Common
  import opened Text
  import opened Tokens

  /** `req.user`. */
  datatype Identity = Identity(userId: UserId, companyId: CompanyId, username: string)

  /** The token of a `Bearer ` header: the header without its first seven
      characters. */
  function BearerToken(header: Option<string>): (t: Option<string>)
    ensures t.Some? <==> header.Some? && StartsWith(header.value, "Bearer ")
    ensures t.Some? ==> header.value == "Bearer " + t.value
  {
    if header.Some? && StartsWith(header.value, "Bearer ") then
      assert header.value == header.value[..7] + header.value[7..];
      Some(header.value[7..])
    else None
  }

  /** The middleware's decision: NO_TOKEN without a bearer header,
      TOKEN_REVOKED for a revoked token (before any verification),
      INVALID_TOKEN when verification fails, else the payload's identity. */
  function Decide(header: Option<string>, revoked: set<string>, verify: string -> Option<AccessPayload>): Result<Identity> {
    match BearerToken(header)
    case None => Err(Raise(401, "NO_TOKEN", "Access token is required"))
    case Some(token) =>
      if token in revoked then Err(Raise(401, "TOKEN_REVOKED", "Token has been revoked"))
      else match verify(token)
        case None => Err(Raise(401, "INVALID_TOKEN", "Invalid or expired token"))
        case Some(p) => Ok(Identity(p.userId, p.companyId, p.username))
  }

  /** The three refusals and the acceptance, each stated on the header. */
  lemma DecideSpec(header: Option<string>, revoked: set<string>, verify: string -> Option<AccessPayload>)
    ensures var r := Decide(header, revoked, verify);
      (r.Err? && CodeOf(r.error) == "NO_TOKEN") <==> header.None? || !StartsWith(header.value, "Bearer ")
    ensures var r := Decide(header, revoked, verify);
      (r.Err? && CodeOf(r.error) == "TOKEN_REVOKED") <==>
        header.Some? && StartsWith(header.value, "Bearer ") && header.value[7..] in revoked
    ensures var r := Decide(header, revoked, verify);
      r.Ok? <==>
        header.Some? && StartsWith(header.value, "Bearer ") && header.value[7..] !in revoked
        && verify(header.value[7..]).Some?
    ensures var r := Decide(header, revoked, verify);
      r.Ok? ==> var p := verify(header.value[7..]).value;
        r.value == Identity(p.userId, p.companyId, p.username)
    ensures var r := Decide(header, revoked, verify);
      r.Err? ==> r.error.App? && r.error.app.statusCode == 401
  {
  }

  /** A token presented as `Bearer <token>` is judged on the token itself; a
      revoked one is refused even when its signature is valid. */
  lemma RevokedRefusedWhateverSignature(token: string, revoked: set<string>, verify: string -> Option<AccessPayload>)
    requires token in revoked
    ensures Decide(Some("Bearer " + token), revoked, verify) == Err(Raise(401, "TOKEN_REVOKED", "Token has been revoked"))
  {
    assert ("Bearer " + token)[..7] == "Bearer ";
    assert ("Bearer " + token)[7..] == token;
  }

  /** An incoming request: its header and the identity set by the middleware. */
  class Request {
    const authorization: Option<string>
    var user: Option<Identity>

    constructor (authorization: Option<string>)
      ensures this.authorization == authorization && user == None
    {
      this.authorization := authorization;
      user := None;
    }
  }

  /** `authenticate(req, res, next)`: on acceptance `req.user` holds the
      payload's identity; on a refusal the request is left as it was and the
      error goes to the error handler. */
  method Authenticate(req: Request, rev: Revocation, verify: string -> Option<AccessPayload>) returns (r: Outcome)
    modifies req
    ensures var d := Decide(req.authorization, old(rev.revoked), verify);
      (d.Ok? ==> r == Pass && req.user == Some(d.value))
      && (d.Err? ==> r == Fail(d.error) && req.user == old(req.user))
  {
    var token := BearerToken(req.authorization);
    if token.None? {
      return Fail(Raise(401, "NO_TOKEN", "Access token is required"));
    }
    if rev.IsRevoked(token.value) {
      return Fail(Raise(401, "TOKEN_REVOKED", "Token has been revoked"));
    }
    var payload := verify(token.value);
    if payload.None? {
      return Fail(Raise(401, "INVALID_TOKEN", "Invalid or expired token"));
    }
    req.user := Some(Identity(payload.value.userId, payload.value.companyId, payload.value.username));
    r := Pass;
  }
}
