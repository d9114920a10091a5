/** Access and refresh tokens, and the revocation list. Signing and
    verification belong to the JWT library; the model keeps what the service
    hands to it: the claims, the secret and the lifetime. Revoked tokens are
    kept in a process-wide set that only ever grows. */
module Tokens {
  import opened Common

  /** The claims of an access token. */
  datatype AccessPayload = AccessPayload(userId: UserId, companyId: CompanyId, username: string)

  /** The claims of a refresh token. */
  datatype RefreshPayload = RefreshPayload(userId: UserId)

  /** Access tokens live 15 minutes, refresh tokens 7 days (in seconds). */
  const AccessLifetime: nat := 900
  const RefreshLifetime: nat := 604800

  /** The two signing secrets of the configuration. */
  datatype Secrets = Secrets(access: string, refresh: string)

  /** `process.env.JWT_SECRET || 'dev-secret'` and
      `process.env.JWT_REFRESH_SECRET || 'dev-refresh-secret'`. */
  function ConfiguredSecrets(jwtSecret: Option<string>, jwtRefreshSecret: Option<string>): (s: Secrets)
    ensures jwtSecret.Some? && jwtSecret.value != "" ==> s.access == jwtSecret.value
    ensures jwtSecret.None? || jwtSecret.value == "" ==> s.access == "dev-secret"
    ensures jwtRefreshSecret.Some? && jwtRefreshSecret.value != "" ==> s.refresh == jwtRefreshSecret.value
    ensures jwtRefreshSecret.None? || jwtRefreshSecret.value == "" ==> s.refresh == "dev-refresh-secret"
  {
    Secrets(OrDefault(jwtSecret, "dev-secret"), OrDefault(jwtRefreshSecret, "dev-refresh-secret"))
  }

  /** What `jwt.sign` is called with. */
  datatype Signing<P> = Signing(payload: P, secret: string, expiresIn: nat)

  /** `signAccessToken`: the access payload, the access secret, 900 s. */
  function SignAccess(payload: AccessPayload, s: Secrets): (t: Signing<AccessPayload>)
    ensures t.payload == payload && t.secret == s.access && t.expiresIn == 15 * 60
  {
    Signing(payload, s.access, AccessLifetime)
  }

  /** `signRefreshToken`: the user id only, the refresh secret, 7 days. */
  function SignRefresh(payload: RefreshPayload, s: Secrets): (t: Signing<RefreshPayload>)
    ensures t.payload == payload && t.secret == s.refresh && t.expiresIn == 7 * 24 * 60 * 60
  {
    Signing(payload, s.refresh, RefreshLifetime)
  }

  /** Without configured secrets the access and refresh secrets differ, so a
      token of one kind never verifies as the other. */
  lemma DefaultSecretsDiffer()
    ensures ConfiguredSecrets(None, None).access != ConfiguredSecrets(None, None).refresh
    ensures forall p: AccessPayload, q: RefreshPayload ::
      SignAccess(p, ConfiguredSecrets(None, None)).secret != SignRefresh(q, ConfiguredSecrets(None, None)).secret
  {
    assert "dev-secret"[4] != "dev-refresh-secret"[4];
  }

  /** The revocation list (`blacklist`). */
  class Revocation {
    var revoked: set<string>

    constructor ()
      ensures revoked == {}
    {
      revoked := {};
    }

    /** `isBlacklisted`. */
    function IsRevoked(token: string): bool
      reads this
    {
      token in revoked
    }

    /** `blacklistToken`: the token is revoked from now on; no other token's
        status changes, and revoking twice is the same as once. */
    method Revoke(token: string)
      modifies this
      ensures revoked == old(revoked) + {token}
      ensures IsRevoked(token)
      ensures forall t :: t != token ==> (IsRevoked(t) <==> old(IsRevoked(t)))
      ensures old(IsRevoked(token)) ==> revoked == old(revoked)
    {
      revoked := revoked + {token};
    }
  }

  /** The revocation list after revoking `tokens` in order. */
  function RevokeAll(before: set<string>, tokens: seq<string>): set<string>
    decreases |tokens|
  {
    if |tokens| == 0 then before else RevokeAll(before + {tokens[0]}, tokens[1..])
  }

  /** Revocation is permanent and order-blind: after any sequence of
      revocations the list holds exactly the tokens revoked before and the
      ones revoked since. */
  lemma {:induction false} RevocationIsPermanent(before: set<string>, tokens: seq<string>)
    ensures RevokeAll(before, tokens) == before + (set t | t in tokens)
    decreases |tokens|
  {
    if |tokens| > 0 {
      RevocationIsPermanent(before + {tokens[0]}, tokens[1..]);
      assert tokens == [tokens[0]] + tokens[1..];
      assert (set t | t in tokens) == {tokens[0]} + (set t | t in tokens[1..]);
    }
  }
}
