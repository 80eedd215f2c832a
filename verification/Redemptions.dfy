/** Who may redeem what: the exact conditions of the token endpoint, and over every
    run that codes and refresh tokens are redeemed by their own client alone. */
module Redemptions {
  import opened Wrappers
  import opened Stores
  import opened Tokens
  import opened Authorize
  import opened Promises
  import opened Lifecycle
  import opened GrantLines
  import opened Server

  // ----- codes -----------------------------------------------------------

  /** The code is live and unexpired, and the request names its client and its
      redirect URI and proves its challenge. */
  predicate MayRedeemCode(
      cfg: Config, st: State, now: int, code: string, clientID: string, redirectURI: string, verifier: string) {
    && code in st.codes && now <= st.codes[code].expiresAt
    && clientID == st.codes[code].clientID && redirectURI == st.codes[code].redirectURI
    && Proves(cfg, st.codes[code].codeChallenge, st.codes[code].codeChallengeMethod, verifier)
  }

  /** A token request for a code gets hold of its grant exactly then; the code is
      gone in any case, and nothing else is touched. */
  lemma TakeCodeExactly(
      cfg: Config, w: World, id: nat, code: string, clientID: string, redirectURI: string, verifier: string)
    requires id !in w.requests
    ensures var w' := AfterTakeCode(cfg, w, id, code, clientID, redirectURI, verifier);
            && (id in w'.requests <==> MayRedeemCode(cfg, w.st, w.now, code, clientID, redirectURI, verifier))
            && w'.st == w.st.(codes := w.st.codes - {code})
            && (id in w'.requests ==>
                  var g, h := w.st.codes[code], w'.requests[id].held;
                  && w'.requests == w.requests[id := w'.requests[id]]
                  && w'.requests[id].line == code && !w'.requests[id].minted
                  && h.clientID == g.clientID && h.scope == g.scope && h.resource == g.resource
                  && h.principal == g.principal)
            && (id !in w'.requests ==> w'.requests == w.requests)
  {
  }

  // ----- refresh tokens --------------------------------------------------

  /** The token is live, the store takes it out, and the request names its client
      or none. */
  predicate MayRedeemRefresh(st: State, token: string, clientID: string, io: Io) {
    && token in st.refresh && io.Works?
    && (clientID == "" || clientID == st.refresh[token].clientID)
  }

  /** The same for a refresh token, which is gone whenever the store works. */
  lemma TakeRefreshExactly(w: World, id: nat, token: string, clientID: string, io: Io)
    requires id !in w.requests && w.st.refresh.Keys <= w.lines.Keys
    ensures var w' := AfterTakeRefresh(w, id, token, clientID, io);
            && (id in w'.requests <==> MayRedeemRefresh(w.st, token, clientID, io))
            && w'.st == w.st.(refresh := if io.Works? then w.st.refresh - {token} else w.st.refresh)
            && (id in w'.requests ==>
                  var g, h := w.st.refresh[token], w'.requests[id].held;
                  && w'.requests == w.requests[id := w'.requests[id]]
                  && w'.requests[id].line == w.lines[token] && !w'.requests[id].minted
                  && h.clientID == g.clientID && h.scope == g.scope && h.resource == g.resource
                  && h.principal == g.principal)
            && (id !in w'.requests ==> w'.requests == w.requests)
  {
    if token !in w.st.refresh {
      assert w.st.refresh - {token} == w.st.refresh;
    }
  }

  // ----- what is issued --------------------------------------------------

  /** The claims of an access token for what a request holds. */
  predicate SaysHeld(cfg: Config, t: Token, h: Held, now: int) {
    && t.alg == cfg.issuer.alg && cfg.issuer.signKey == Some(t.signedWith)
    && t.claims.issuer == cfg.issuer.issuer && t.claims.subject == h.clientID && t.claims.audience == h.resource
    && t.claims.scope == h.scope && t.claims.principal == h.principal.name
    && ShownAs(cfg, h.principal.binding, h.resource, t.claims.binding)
    && t.claims.issuedAt == now - now % 1_000_000_000
    && t.claims.expiresAt == now + cfg.issuer.ttl - (now + cfg.issuer.ttl) % 1_000_000_000
  }

  /** Tokens are issued exactly when the server signs, a refresh token is drawn
      and the store works, else the answer is a server error and nothing is
      stored. The access token says what is held, for the configured lifetime,
      with the binding projected; the refresh token keeps it all, the binding
      unprojected. */
  lemma IssueTokensExactly(cfg: Config, st: State, h: Held, now: int, random: Option<string>, io: Io)
    ensures var (st', reply) := IssueTokens(cfg, st, h, now, random, io);
            if cfg.issuer.signKey.Some? && random.Some? && io.Works?
            then
              && reply.TokenPair? && reply.refresh == random.value && reply.scope == h.scope
              && SaysHeld(cfg, reply.access, h, now)
              && st' == st.(refresh := st.refresh[random.value := RefreshGrant(h.clientID, h.scope, h.resource,
                  h.principal)])
            else st' == st && reply == TokenError(ServerError)
  {
  }

  function HeldByRefresh(g: RefreshGrant): Held { Held(g.clientID, g.scope, g.resource, g.principal) }

  /** The authorization_code grant: a code that may not be redeemed is an invalid
      grant, whatever the reason, and is gone. */
  lemma CodeFaults(
      cfg: Config, st: State, now: int, code: string, clientID: string, redirectURI: string, verifier: string,
      random: Option<string>, io: Io)
    ensures var gone := st.(codes := st.codes - {code});
            TokensForCode(cfg, st, now, code, clientID, redirectURI, verifier, random, io)
            == if MayRedeemCode(cfg, st, now, code, clientID, redirectURI, verifier)
               then IssueTokens(cfg, gone, HeldOf(st.codes[code]), now, random, io)
               else (gone, TokenError(InvalidGrant))
  {
  }

  /** The refresh_token grant: a server error exactly when the store failed, with
      the token still there; an invalid grant when the token is unknown or another
      client's, and it is gone. */
  lemma RefreshFaults(
      cfg: Config, st: State, now: int, token: string, clientID: string, takeIo: Io, random: Option<string>, io: Io)
    ensures var (st', reply) := TokensForRefresh(cfg, st, now, token, clientID, takeIo, random, io);
            if MayRedeemRefresh(st, token, clientID, takeIo)
            then (st', reply)
                == IssueTokens(cfg, st.(refresh := st.refresh - {token}), HeldByRefresh(st.refresh[token]), now,
                random, io)
            else if takeIo.GetFails? || (takeIo.SetFails? && token in st.refresh)
            then st' == st && reply == TokenError(ServerError)
            else st' == st.(refresh := st.refresh - {token}) && reply == TokenError(InvalidGrant)
  {
    if token !in st.refresh {
      assert st.refresh - {token} == st.refresh;
    }
  }

  // ----- over every run --------------------------------------------------

  /** The redemption names the client of the line, and for its code the redirect
      URI; a refresh may name no client. */
  predicate ByOwnClient(r: Redemption, g: AuthGrant) {
    match r
    case OfCode(token, line, clientID, redirectURI) =>
        token == line && clientID == g.clientID && redirectURI == g.redirectURI
    case OfRefresh(_, _, clientID) => clientID == "" || clientID == g.clientID
  }

  ghost predicate OwnClients(w: World) {
    forall i :: 0 <= i < |w.redeemed| ==>
      w.redeemed[i].line in w.auths && ByOwnClient(w.redeemed[i], w.auths[w.redeemed[i].line].grant)
  }

  lemma MoreAuths(w: World, w': World)
    requires OwnClients(w) && Accumulates(w, w') && w'.redeemed == w.redeemed
    ensures OwnClients(w')
  {
  }

  /** A redemption is added, or none. */
  lemma OneMoreOwn(w: World, w': World, r: Redemption)
    requires OwnClients(w) && w'.auths == w.auths && r.line in w.auths && ByOwnClient(r, w.auths[r.line].grant)
    requires w'.redeemed == w.redeemed || w'.redeemed == w.redeemed + [r]
    ensures OwnClients(w')
  {
  }

  lemma TakeCodeOwn(
      cfg: Config, w: World, id: nat, code: string, clientID: string, redirectURI: string, verifier: string)
    requires Keyed(w) && Faithful(cfg, w) && OwnClients(w) && id !in w.requests
    ensures OwnClients(AfterTakeCode(cfg, w, id, code, clientID, redirectURI, verifier))
  {
    var w' := AfterTakeCode(cfg, w, id, code, clientID, redirectURI, verifier);
    if MayRedeemCode(cfg, w.st, w.now, code, clientID, redirectURI, verifier) {
      assert w.st.codes[code] == w.auths[code].grant;
      OneMoreOwn(w, w', OfCode(code, code, clientID, redirectURI));
    } else {
      assert w'.redeemed == w.redeemed && w'.auths == w.auths;
    }
  }

  lemma TakeRefreshOwn(cfg: Config, w: World, id: nat, token: string, clientID: string, io: Io)
    requires Keyed(w) && Faithful(cfg, w) && OwnClients(w) && id !in w.requests
    ensures OwnClients(AfterTakeRefresh(w, id, token, clientID, io))
  {
    var w' := AfterTakeRefresh(w, id, token, clientID, io);
    if MayRedeemRefresh(w.st, token, clientID, io) {
      assert w.st.refresh[token] == RefreshOf(w.auths[w.lines[token]].grant);
      OneMoreOwn(w, w', OfRefresh(token, w.lines[token], clientID));
    } else {
      assert w'.redeemed == w.redeemed && w'.auths == w.auths;
    }
  }

  lemma OthersRedeemNothing(cfg: Config, w: World, e: Event)
    requires Serviceable(cfg) && Lawful(w, e) && !e.TakeCode? && !e.TakeRefresh?
    ensures Next(cfg, w, e).redeemed == w.redeemed
  {
  }

  lemma NextOwn(cfg: Config, w: World, e: Event)
    requires Serviceable(cfg) && Lawful(w, e) && Sound(cfg, w) && OwnClients(w)
    ensures OwnClients(Next(cfg, w, e))
  {
    if e.TakeCode? {
      TakeCodeOwn(cfg, w, e.id, e.code, e.clientID, e.redirectURI, e.verifier);
    } else if e.TakeRefresh? {
      TakeRefreshOwn(cfg, w, e.id, e.token, e.clientID, e.io);
    } else {
      OthersRedeemNothing(cfg, w, e);
      NextNoRevival(cfg, w, e);
      MoreAuths(w, Next(cfg, w, e));
    }
  }

  lemma {:induction false} AlwaysOwn(cfg: Config, w: World, events: seq<Event>)
    requires Serviceable(cfg) && Runs(cfg, w, events) && Sound(cfg, w) && OwnClients(w)
    ensures OwnClients(After(cfg, w, events))
    decreases |events|
  {
    if events != [] {
      NextOwn(cfg, w, events[0]);
      NextSound(cfg, w, events[0]);
      AlwaysOwn(cfg, Next(cfg, w, events[0]), events[1..]);
    }
  }

  /** In every run each code was redeemed by the client and for the redirect URI it
      was issued to, and each refresh token by the client of its line or by one
      that did not say. */
  lemma RedeemedByOwnClient(cfg: Config, now: int, events: seq<Event>)
    requires Serviceable(cfg) && Runs(cfg, Start(now), events)
    ensures OwnClients(After(cfg, Start(now), events))
  {
    StartSound(cfg, now);
    AlwaysOwn(cfg, Start(now), events);
  }
}
