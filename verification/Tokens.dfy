/** token.go: minting and validating access tokens over ideal signatures. */
module Tokens {
  import opened Wrappers
  import opened Identity
  import opened Audience

  datatype Algorithm = HS256 | EdDSA

  /** Keys of ideal signature schemes: a shared secret, or the two halves of
      a key pair. */
  datatype Key = Shared(secret: string) | Private(seed: string) | Public(seed: string)

  /** vk verifies what sk signs. */
  predicate Matches(sk: Key, vk: Key) {
    (sk.Shared? && vk == sk) || (sk.Private? && vk == Public(sk.seed))
  }

  datatype Claims = Claims(
    issuer: string, subject: string, audience: string,
    issuedAt: int, expiresAt: int,
    scope: string, principal: string, binding: Binding)

  datatype Token = Token(alg: Algorithm, signedWith: Key, claims: Claims)

  /** A missing signing key makes the issuer verify-only. */
  datatype Issuer = Issuer(alg: Algorithm, signKey: Option<Key>, verifyKey: Key, issuer: string, audience: string,
      ttl: int)

  datatype Verified = Verified(clientID: string, scope: string, grant: Grant, expiresAt: int)

  const SECOND := 1_000_000_000

  /** Token dates have whole seconds. */
  function NumericDate(t: int): int { t - t % SECOND }

  function MintFor(i: Issuer, clientID: string, scope: string, audience: string, p: Grant, now: int): Result<Token> {
    if i.signKey.None? then Err
    else Ok(Token(i.alg, i.signKey.value,
                  Claims(i.issuer, clientID, audience, NumericDate(now), NumericDate(now + i.ttl),
                         scope, p.name, p.binding)))
  }

  function Validate(i: Issuer, t: Token, now: int): Result<Verified> {
    if t.alg != i.alg || !Matches(t.signedWith, i.verifyKey) then Err
    else if t.claims.issuer != i.issuer || t.claims.audience != i.audience then Err
    else if now >= t.claims.expiresAt then Err
    else Ok(Verified(t.claims.subject, t.claims.scope, Grant(t.claims.principal, t.claims.binding), t.claims.expiresAt))
  }

  /** A host that signs, and a delegate that holds only its public key. */
  predicate HostAndDelegate(host: Issuer, delegate: Issuer) {
    && host.alg == delegate.alg && host.signKey.Some?
    && Matches(host.signKey.value, delegate.verifyKey)
    && host.issuer == delegate.issuer
  }

  /** Audience isolation across the whole allowed list: whatever two resources
      clients ask for, the token minted for one is accepted at the other,
      while unexpired, exactly when the two requests resolve alike; and what
      is then read is the identity that was granted. */
  lemma AudienceIsolation(
      host: Issuer, delegate: Issuer, resources: seq<string>, default: string,
      asked: string, served: string, clientID: string, scope: string, p: Grant, minted: int, used: int)
    requires HostAndDelegate(host, delegate)
    requires Resolve(resources, default, asked).Some? && Resolve(resources, default, served).Some?
    requires delegate.audience == Resolve(resources, default, served).value
    requires used < NumericDate(minted + host.ttl)
    ensures MintFor(host, clientID, scope, Resolve(resources, default, asked).value, p, minted).Ok?
    ensures var t := MintFor(host, clientID, scope, Resolve(resources, default, asked).value, p, minted).value;
            && (Validate(delegate, t, used).Ok? <==>
                Resolve(resources, default, asked) == Resolve(resources, default, served))
            && (Validate(delegate, t, used).Ok? ==>
                  Validate(delegate, t, used).value
                  == Verified(clientID, scope, p, NumericDate(minted + host.ttl)))
  {
  }

  /** A delegate, holding no signing key, can mint nothing; and no token
      outlives its issuer's lifetime. */
  lemma DelegateNeverMints(
      delegate: Issuer, host: Issuer, clientID: string, scope: string, aud: string, p: Grant, now: int, used: int)
    requires delegate.signKey.None?
    ensures MintFor(delegate, clientID, scope, aud, p, now).Err?
    ensures MintFor(host, clientID, scope, aud, p, now).Ok? && used >= now + host.ttl
            ==> Validate(delegate, MintFor(host, clientID, scope, aud, p, now).value, used).Err?
  {
  }

  /** A token is accepted exactly when it was signed, by the algorithm of the
      verifier, with the key that its own verifies, for its issuer and its audience,
      and has not expired; and then it is read as it was claimed. */
  lemma AcceptsExactly(i: Issuer, t: Token, now: int)
    ensures Validate(i, t, now).Ok? <==>
              && t.alg == i.alg
              && ((t.signedWith.Shared? && i.verifyKey == t.signedWith)
                  || (t.signedWith.Private? && i.verifyKey == Public(t.signedWith.seed)))
              && t.claims.issuer == i.issuer && t.claims.audience == i.audience && now < t.claims.expiresAt
    ensures Validate(i, t, now).Ok? ==>
              Validate(i, t, now).value
              == Verified(t.claims.subject, t.claims.scope, Grant(t.claims.principal, t.claims.binding),
                  t.claims.expiresAt)
  {
  }
}
