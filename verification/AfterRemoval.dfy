/** What outlives a removal. Once the refresh tokens of a name are purged, what is
    still held or minted for it comes from its unredeemed codes and from token
    requests under way. Without either nothing comes back; a request under way
    always can, and brings a live refresh token with it. */
module AfterRemoval {
  import opened Wrappers
  import opened Stores
  import opened Authorize
  import opened Lifecycle
  import opened GrantLines
  import opened People
  import opened Removal

  // ----- a purged name ---------------------------------------------------

  /** The name has no record and no refresh token. */
  ghost predicate Cleared(cfg: Config, p: World, name: string) {
    && Sound(cfg, p) && name != "" && name !in p.st.principals
    && forall t :: t in p.st.refresh ==> p.st.refresh[t].principal.name != name
  }

  predicate InFlight(p: World, name: string) {
    exists id :: id in p.requests && p.requests[id].held.principal.name == name
  }

  predicate Unredeemed(p: World, name: string) {
    exists c :: c in p.st.codes && p.st.codes[c].principal.name == name
  }

  ghost predicate NoRefreshOf(w: World, name: string) {
    forall t :: t in w.st.refresh ==> w.st.refresh[t].principal.name != name
  }

  /** Nothing of the name is held at w, and nothing was minted for it since p. */
  ghost predicate NothingOf(p: World, w: World, name: string) {
    && NoRefreshOf(w, name) && !InFlight(w, name) && !Unredeemed(w, name)
    && forall i :: |p.tokens| <= i < |w.tokens| ==> w.tokens[i].token.claims.principal != name
  }

  /** What was minted for the name since p descends from a code that was
      unredeemed at p. */
  ghost predicate MintsFromCodes(p: World, w: World, name: string) {
    forall i :: |p.tokens| <= i < |w.tokens| && w.tokens[i].token.claims.principal == name ==>
        w.tokens[i].line in p.st.codes
  }

  /** The world w after p, between which the name is not authorized anew. */
  ghost predicate Follows(cfg: Config, p: World, w: World, name: string) {
    && Sound(cfg, w) && OthersAuthorized(p, w, name) && Accumulates(p, w)
    && forall l :: NotRevived(p, w, l)
  }

  lemma RunFollows(cfg: Config, p: World, events: seq<Event>, name: string)
    requires Serviceable(cfg) && Cleared(cfg, p, name) && Runs(cfg, p, events) && NeverAdds(events, name)
    ensures Follows(cfg, p, After(cfg, p, events), name)
  {
    AlwaysSound(cfg, p, events);
    StaysAbsent(cfg, p, events, name);
    LinesNeverRevive(cfg, p, events, "");
    forall l ensures NotRevived(p, After(cfg, p, events), l) {
      LinesNeverRevive(cfg, p, events, l);
    }
  }

  /** A line of the name that is held or minted on later was held at p by its
      code or by a request. */
  lemma HeldAtPurge(cfg: Config, p: World, w: World, name: string, l: string)
    requires Cleared(cfg, p, name) && Follows(cfg, p, w, name)
    requires l in w.auths && w.auths[l].grant.principal.name == name
    requires Carried(w, l) || MintedOn(p, w, l)
    ensures (l in p.st.codes && Unredeemed(p, name)) || InFlight(p, name)
  {
    assert l in p.auths && p.auths[l] == w.auths[l];
    assert NotRevived(p, w, l);
    CarriedWhere(p, l);
    assert forall t :: t in p.st.refresh && t in p.lines && p.lines[t] == l ==>
        p.st.refresh[t] == RefreshOf(p.auths[l].grant);
    if l in p.st.codes {
      assert p.st.codes[l] == p.auths[l].grant;
    } else {
      var id :| id in p.requests && p.requests[id].line == l;
      assert p.requests[id].held == HeldOf(p.auths[l].grant);
    }
  }

  /** Every place of the name at w is a line of the name. */
  lemma PlacesOfName(cfg: Config, w: World, name: string)
    requires Sound(cfg, w)
    ensures !NoRefreshOf(w, name) || InFlight(w, name) || Unredeemed(w, name) ==>
              exists l :: l in w.auths && w.auths[l].grant.principal.name == name && Carried(w, l)
  {
    PlacesCarry(w);
    if t :| t in w.st.refresh && w.st.refresh[t].principal.name == name {
      assert w.st.refresh[t] == RefreshOf(w.auths[w.lines[t]].grant) && Carried(w, w.lines[t]);
    } else if id :| id in w.requests && w.requests[id].held.principal.name == name {
      var l := w.requests[id].line;
      assert w.requests[id].held == HeldOf(w.auths[l].grant) && Carried(w, l);
    } else if c :| c in w.st.codes && w.st.codes[c].principal.name == name {
      assert w.st.codes[c] == w.auths[c].grant && Carried(w, c);
    }
  }

  lemma NothingFollows(cfg: Config, p: World, w: World, name: string)
    requires Cleared(cfg, p, name) && Follows(cfg, p, w, name)
    requires !InFlight(p, name) && !Unredeemed(p, name)
    ensures NothingOf(p, w, name)
  {
    PlacesOfName(cfg, w, name);
    if l :| l in w.auths && w.auths[l].grant.principal.name == name && Carried(w, l) {
      HeldAtPurge(cfg, p, w, name, l);
    }
    MintsFollow(cfg, p, w, name);
  }

  lemma MintsFollow(cfg: Config, p: World, w: World, name: string)
    requires Cleared(cfg, p, name) && Follows(cfg, p, w, name) && !InFlight(p, name)
    ensures MintsFromCodes(p, w, name)
    ensures !Unredeemed(p, name) ==> forall i :: |p.tokens| <= i < |w.tokens| ==>
              w.tokens[i].token.claims.principal != name
  {
    forall i | |p.tokens| <= i < |w.tokens| && w.tokens[i].token.claims.principal == name
      ensures w.tokens[i].line in p.st.codes && Unredeemed(p, name)
    {
      var l := w.tokens[i].line;
      assert TokenSays(cfg, w.tokens[i].token, w.auths[l].grant);
      assert MintedOn(p, w, l);
      HeldAtPurge(cfg, p, w, name, l);
    }
  }

  /** If at the purge no code of the name is unredeemed and no token request of
      it is under way, no later world before it is added again holds a refresh
      token, a request or a code of the name, and none mints for it. */
  lemma NothingComesBack(cfg: Config, p: World, events: seq<Event>, name: string)
    requires Serviceable(cfg) && Cleared(cfg, p, name) && Runs(cfg, p, events) && NeverAdds(events, name)
    requires !InFlight(p, name) && !Unredeemed(p, name)
    ensures NothingOf(p, After(cfg, p, events), name)
  {
    RunFollows(cfg, p, events, name);
    NothingFollows(cfg, p, After(cfg, p, events), name);
  }

  // ----- requests under way come back ------------------------------------

  lemma {:induction false} LongerThanAll(s: set<string>) returns (n: nat)
    ensures forall x :: x in s ==> |x| < n
    decreases |s|
  {
    n := 0;
    if s != {} {
      var a :| a in s;
      n := LongerThanAll(s - {a});
      n := if |a| < n then n else |a| + 1;
    }
  }

  /** There is always another token to draw. */
  lemma FreshToken(s: set<string>) returns (x: string)
    ensures x !in s
  {
    var n := LongerThanAll(s);
    x := seq(n, _ => 'x');
  }

  /** A run of one more step. */
  lemma RunFirst(cfg: Config, w: World, e: Event, rest: seq<Event>)
    requires Serviceable(cfg) && Lawful(w, e) && Runs(cfg, Next(cfg, w, e), rest)
    ensures Runs(cfg, w, [e] + rest) && After(cfg, w, [e] + rest) == After(cfg, Next(cfg, w, e), rest)
  {
    assert ([e] + rest)[0] == e && ([e] + rest)[1..] == rest;
  }

  lemma RunNone(cfg: Config, w: World)
    requires Serviceable(cfg)
    ensures Runs(cfg, w, []) && After(cfg, w, []) == w
  {
  }

  /** What minting for a request does, with an issuer that signs. */
  lemma MintLands(cfg: Config, w: World, id: nat)
    requires Serviceable(cfg) && cfg.issuer.signKey.Some? && id in w.requests && !w.requests[id].minted
    ensures var w' := Next(cfg, w, Mint(id)); var r := w.requests[id];
            && w'.requests == w.requests[id := r.(minted := true)] && w'.drawn == w.drawn && w'.st == w.st
            && |w'.tokens| == |w.tokens| + 1
            && w'.tokens[|w.tokens|].line == r.line
                && w'.tokens[|w.tokens|].token.claims.principal == r.held.principal.name
  {
  }

  /** What storing its refresh token does. */
  lemma RenewLands(cfg: Config, w: World, id: nat, x: string)
    requires Serviceable(cfg) && id in w.requests && w.requests[id].minted && x !in w.drawn
    ensures Lawful(w, Renew(id, Some(x), Works))
    ensures var w' := Next(cfg, w, Renew(id, Some(x), Works));
            && x in w'.st.refresh && w'.st.refresh[x] == RefreshHeld(w.requests[id].held)
            && x in w'.lines && w'.lines[x] == w.requests[id].line
            && w'.requests == w.requests - {id} && w'.tokens == w.tokens && w'.st.principals == w.st.principals
  {
  }

  lemma TakeLands(cfg: Config, w: World, id: nat, x: string)
    requires Serviceable(cfg) && id !in w.requests && x in w.st.refresh && x in w.lines
    ensures var w' := Next(cfg, w, TakeRefresh(id, x, "", Works));
            && id in w'.requests && !w'.requests[id].minted && w'.requests[id].line == w.lines[x]
            && RefreshHeld(w'.requests[id].held) == w.st.refresh[x] && w'.tokens == w.tokens
  {
  }

  /** A minted request leaves a live refresh token behind. */
  lemma MintedRenews(cfg: Config, w: World, id: nat) returns (events: seq<Event>)
    requires Serviceable(cfg) && id in w.requests && w.requests[id].minted
    ensures Runs(cfg, w, events) && |events| == 1 && events[0].Renew?
    ensures After(cfg, w, events).st.principals == w.st.principals
    ensures !NoRefreshOf(After(cfg, w, events), w.requests[id].held.principal.name)
  {
    var x := FreshToken(w.drawn);
    var e := Renew(id, Some(x), Works);
    RenewLands(cfg, w, id, x);
    RunNone(cfg, Next(cfg, w, e));
    RunFirst(cfg, w, e, []);
    events := [e] + [];
  }

  /** And so does any request under way, once minted for. */
  lemma FlightRenews(cfg: Config, w: World, id: nat) returns (events: seq<Event>)
    requires Serviceable(cfg) && cfg.issuer.signKey.Some? && id in w.requests
    ensures Runs(cfg, w, events) && forall i :: 0 <= i < |events| ==> events[i].Renew? || events[i].Mint?
    ensures !NoRefreshOf(After(cfg, w, events), w.requests[id].held.principal.name)
  {
    if w.requests[id].minted {
      events := MintedRenews(cfg, w, id);
    } else {
      MintLands(cfg, w, id);
      var rest := MintedRenews(cfg, Next(cfg, w, Mint(id)), id);
      RunFirst(cfg, w, Mint(id), rest);
      events := [Mint(id)] + rest;
    }
  }

  /** A request under way leads to a token minted on its line. */
  lemma FlightMints(cfg: Config, w: World, id: nat) returns (events: seq<Event>)
    requires Serviceable(cfg) && cfg.issuer.signKey.Some? && id in w.requests
    ensures Runs(cfg, w, events) && forall i :: 0 <= i < |events| ==>
              events[i].Renew? || events[i].TakeRefresh? || events[i].Mint?
    ensures var w' := After(cfg, w, events); var n := |w.tokens|;
            && n < |w'.tokens| && w'.tokens[n].line == w.requests[id].line
            && w'.tokens[n].token.claims.principal == w.requests[id].held.principal.name
  {
    if !w.requests[id].minted {
      MintLands(cfg, w, id);
      RunNone(cfg, Next(cfg, w, Mint(id)));
      RunFirst(cfg, w, Mint(id), []);
      events := [Mint(id)] + [];
    } else {
      var x := FreshToken(w.drawn);
      var e := Renew(id, Some(x), Works);
      RenewLands(cfg, w, id, x);
      var rest := TokenMints(cfg, Next(cfg, w, e), id, x);
      RunFirst(cfg, w, e, rest);
      events := [e] + rest;
    }
  }

  lemma TokenMints(cfg: Config, w: World, id: nat, x: string) returns (events: seq<Event>)
    requires Serviceable(cfg) && cfg.issuer.signKey.Some? && id !in w.requests && x in w.st.refresh && x in w.lines
    ensures Runs(cfg, w, events) && forall i :: 0 <= i < |events| ==> events[i].TakeRefresh? || events[i].Mint?
    ensures var w' := After(cfg, w, events); var n := |w.tokens|;
            && n < |w'.tokens| && w'.tokens[n].line == w.lines[x]
            && w'.tokens[n].token.claims.principal == w.st.refresh[x].principal.name
  {
    var e := TakeRefresh(id, x, "", Works);
    TakeLands(cfg, w, id, x);
    var w1 := Next(cfg, w, e);
    MintLands(cfg, w1, id);
    RunNone(cfg, Next(cfg, w1, Mint(id)));
    RunFirst(cfg, w1, Mint(id), []);
    RunFirst(cfg, w, e, [Mint(id)] + []);
    events := [e] + ([Mint(id)] + []);
  }

  // ----- the exact conditions --------------------------------------------

  /** Whatever happens after p, until the name is added again. */
  ghost predicate AlwaysFromCodes(cfg: Config, p: World, name: string)
    requires Serviceable(cfg)
  {
    forall events :: Runs(cfg, p, events) && NeverAdds(events, name) ==> MintsFromCodes(p, After(cfg, p, events), name)
  }

  ghost predicate NeverRefreshed(cfg: Config, p: World, name: string)
    requires Serviceable(cfg)
  {
    forall events :: Runs(cfg, p, events) && NeverAdds(events, name) ==> NoRefreshOf(After(cfg, p, events), name)
  }

  /** Every token minted later for the name descends from a code unredeemed at
      the purge, whatever happens, exactly when no token request of the name was
      under way then. */
  lemma DescentExactly(cfg: Config, p: World, name: string)
    requires Serviceable(cfg) && cfg.issuer.signKey.Some? && Cleared(cfg, p, name)
    ensures AlwaysFromCodes(cfg, p, name) <==> !InFlight(p, name)
  {
    if !InFlight(p, name) {
      forall events | Runs(cfg, p, events) && NeverAdds(events, name)
        ensures MintsFromCodes(p, After(cfg, p, events), name)
      {
        RunFollows(cfg, p, events, name);
        MintsFollow(cfg, p, After(cfg, p, events), name);
      }
    } else {
      var events := FlightMintsElsewhere(cfg, p, name);
    }
  }

  lemma FlightMintsElsewhere(cfg: Config, p: World, name: string) returns (events: seq<Event>)
    requires Serviceable(cfg) && cfg.issuer.signKey.Some? && Sound(cfg, p) && InFlight(p, name)
    ensures Runs(cfg, p, events) && NeverAdds(events, name) && !MintsFromCodes(p, After(cfg, p, events), name)
  {
    var id :| id in p.requests && p.requests[id].held.principal.name == name;
    events := FlightMints(cfg, p, id);
    assert p.requests[id].line !in p.st.codes;
  }

  /** The code can still be redeemed: it has not expired, and some verifier shows
      its challenge. */
  ghost predicate CanRedeem(cfg: Config, now: int, g: AuthGrant) {
    now <= g.expiresAt && exists verifier :: VerifyPKCE(cfg, g.codeChallenge, g.codeChallengeMethod, verifier)
  }

  ghost predicate Redeemable(cfg: Config, p: World, name: string) {
    exists c :: c in p.st.codes && p.st.codes[c].principal.name == name && CanRedeem(cfg, p.now, p.st.codes[c])
  }

  /** The purge keeps the name free of refresh tokens until it is added again,
      whatever happens, exactly when at the purge no token request of it was under
      way and none of its codes could be redeemed. */
  lemma PurgeHoldsExactly(cfg: Config, p: World, name: string)
    requires Serviceable(cfg) && cfg.issuer.signKey.Some? && Cleared(cfg, p, name)
    ensures NeverRefreshed(cfg, p, name) <==> !InFlight(p, name) && !Redeemable(cfg, p, name)
  {
    if !InFlight(p, name) && !Redeemable(cfg, p, name) {
      forall events | Runs(cfg, p, events) && NeverAdds(events, name)
        ensures NoRefreshOf(After(cfg, p, events), name)
      {
        NothingRefreshed(cfg, p, events, name);
      }
    } else {
      var events := SomethingRefreshed(cfg, p, name);
    }
  }

  lemma SomethingRefreshed(cfg: Config, p: World, name: string) returns (events: seq<Event>)
    requires Serviceable(cfg) && cfg.issuer.signKey.Some? && (InFlight(p, name) || Redeemable(cfg, p, name))
    ensures Runs(cfg, p, events) && NeverAdds(events, name) && !NoRefreshOf(After(cfg, p, events), name)
  {
    if InFlight(p, name) {
      var id :| id in p.requests && p.requests[id].held.principal.name == name;
      events := FlightRenews(cfg, p, id);
    } else {
      var c :| c in p.st.codes && p.st.codes[c].principal.name == name && CanRedeem(cfg, p.now, p.st.codes[c]);
      events := CodeRenews(cfg, p, c);
    }
  }

  lemma FreshId(requests: map<nat, TokenRequest>) returns (id: nat)
    ensures id !in requests
  {
    id := AboveAll(requests.Keys);
  }

  lemma {:induction false} AboveAll(ids: set<nat>) returns (n: nat)
    ensures forall id :: id in ids ==> id < n
    decreases |ids|
  {
    n := 0;
    if ids != {} {
      var a :| a in ids;
      var above := AboveAll(ids - {a});
      n := if a < above then above else a + 1;
      forall id | id in ids ensures id < n {
        if id != a { assert id in ids - {a}; }
      }
    }
  }

  /** A code that can be redeemed leads to a live refresh token. */
  lemma CodeRenews(cfg: Config, p: World, c: string) returns (events: seq<Event>)
    requires Serviceable(cfg) && cfg.issuer.signKey.Some? && c in p.st.codes && CanRedeem(cfg, p.now, p.st.codes[c])
    ensures Runs(cfg, p, events) && forall i :: 0 <= i < |events| ==> !events[i].AddPrincipal?
    ensures !NoRefreshOf(After(cfg, p, events), p.st.codes[c].principal.name)
  {
    var g := p.st.codes[c];
    var verifier :| VerifyPKCE(cfg, g.codeChallenge, g.codeChallengeMethod, verifier);
    var id := FreshId(p.requests);
    var e := TakeCode(id, c, g.clientID, g.redirectURI, verifier);
    CodeTaken(cfg, p, id, c, verifier);
    var rest := FlightRenews(cfg, Next(cfg, p, e), id);
    RunFirst(cfg, p, e, rest);
    events := [e] + rest;
    assert forall i :: 0 < i < |events| ==> events[i] == rest[i - 1];
  }

  lemma CodeTaken(cfg: Config, p: World, id: nat, c: string, verifier: string)
    requires Serviceable(cfg) && id !in p.requests && c in p.st.codes && p.now <= p.st.codes[c].expiresAt
    requires VerifyPKCE(cfg, p.st.codes[c].codeChallenge, p.st.codes[c].codeChallengeMethod, verifier)
    ensures var g := p.st.codes[c]; var w' := Next(cfg, p, TakeCode(id, c, g.clientID, g.redirectURI, verifier));
            id in w'.requests && w'.requests[id].held.principal.name == g.principal.name
  {
    var g := p.st.codes[c];
    assert Redeems(p.st.codes, c, p.now) == Some(g);
    assert RedeemCode(cfg, p.st, p.now, c, g.clientID, g.redirectURI, verifier).1 == Some(HeldOf(g));
  }

  // ----- codes that cannot be redeemed -----------------------------------

  /** The line is held by nothing but, at most, a code that cannot be redeemed. */
  ghost predicate Stuck(cfg: Config, w: World, l: string) {
    && l in w.auths
    && (forall id :: id in w.requests ==> w.requests[id].line != l)
    && (forall t :: t in w.st.refresh && t in w.lines ==> w.lines[t] != l)
    && (l in w.st.codes ==> !CanRedeem(cfg, w.now, w.st.codes[l]))
  }

  lemma FlowStuck(cfg: Config, w: World, w': World, st: State, response: Response, drawn: Option<string>, l: string)
    requires Keyed(w) && Stuck(cfg, w, l) && Drawn(drawn) !! w.drawn
    requires OneFreshCode(w.st, st, response, drawn) && w'.st == st
    requires w'.requests == w.requests && w'.lines == w.lines && w'.now == w.now && l in w'.auths
    ensures Stuck(cfg, w', l)
  {
    if response.RedirectCode? {
      assert response.code !in w.drawn;
    }
  }

  lemma SubmitStuck(cfg: Config, w: World, id: nat, env: Env, post: Post, l: string)
    requires Serviceable(cfg) && Keyed(w) && FreshTail(w, env.tail) && Stuck(cfg, w, l)
    ensures Stuck(cfg, AfterSubmit(cfg, w, id, env, post), l)
  {
    PostIssuesOne(cfg, w.st, env, post);
    SubmittedStuck(cfg, w, id, env, post, AuthorizePost(cfg, w.st, env, post), l);
  }

  lemma SubmittedStuck(cfg: Config, w: World, id: nat, env: Env, post: Post, out: Outcome, l: string)
    requires Keyed(w) && FreshTail(w, env.tail) && OutcomeIssuesOne(w.st, out, env.tail.codeDraw) && Stuck(cfg, w, l)
    ensures Stuck(cfg, Submitted(w, id, env, post, out), l)
  {
    if out.Done? {
      FlowStuck(cfg, w, Submitted(w, id, env, post, out), out.st, out.response, env.tail.codeDraw, l);
    }
  }

  lemma CallbackStuck(cfg: Config, w: World, id: nat, tail: Tail, result: EnrollResult, l: string)
    requires Serviceable(cfg) && Keyed(w) && FreshTail(w, tail) && id in w.calling && Stuck(cfg, w, l)
    ensures Stuck(cfg, AfterCallback(cfg, w, id, tail, result), l)
  {
    FinishIssuesOne(cfg, w.st, tail, w.calling[id].call, result);
    var (st, response) := FinishEnroll(cfg, w.st, tail, w.calling[id].call, result);
    FlowStuck(cfg, w, Returned(w, id, tail, st, response), st, response, tail.codeDraw, l);
  }

  lemma TakeStepStuck(cfg: Config, w: World, w': World, id: nat, token: string, line: string, held: Held, l: string)
    requires TakeStep(w, w', id, token, line, held) && Stuck(cfg, w, l) && line != l && w'.now == w.now
    ensures Stuck(cfg, w', l)
  {
  }

  lemma LessStuck(cfg: Config, w: World, w': World, l: string)
    requires Stuck(cfg, w, l) && w'.auths == w.auths && w'.lines == w.lines && w.now <= w'.now
    requires forall c :: c in w'.st.codes ==> c in w.st.codes && w'.st.codes[c] == w.st.codes[c]
    requires w'.st.refresh.Keys <= w.st.refresh.Keys
    requires forall id :: id in w'.requests ==> id in w.requests && w'.requests[id].line == w.requests[id].line
    ensures Stuck(cfg, w', l)
  {
    if l in w'.st.codes && CanRedeem(cfg, w'.now, w'.st.codes[l]) {
      assert CanRedeem(cfg, w.now, w.st.codes[l]);
    }
  }

  lemma TakeCodeStuck(
      cfg: Config, w: World, id: nat, code: string, clientID: string, redirectURI: string, verifier: string, l: string)
    requires Keyed(w) && id !in w.requests && Stuck(cfg, w, l)
    ensures Stuck(cfg, AfterTakeCode(cfg, w, id, code, clientID, redirectURI, verifier), l)
  {
    var w' := AfterTakeCode(cfg, w, id, code, clientID, redirectURI, verifier);
    var held := RedeemCode(cfg, w.st, w.now, code, clientID, redirectURI, verifier).1;
    if held.None? {
      LessStuck(cfg, w, w', l);
    } else {
      TakeCodeIsStep(cfg, w, id, code, clientID, redirectURI, verifier);
      assert CanRedeem(cfg, w.now, w.st.codes[code]);
      TakeStepStuck(cfg, w, w', id, code, code, held.value, l);
    }
  }

  lemma TakeRefreshStuck(cfg: Config, w: World, id: nat, token: string, clientID: string, io: Io, l: string)
    requires Keyed(w) && id !in w.requests && Stuck(cfg, w, l)
    ensures Stuck(cfg, AfterTakeRefresh(w, id, token, clientID, io), l)
  {
    var w' := AfterTakeRefresh(w, id, token, clientID, io);
    var held := RedeemRefresh(w.st, token, clientID, io).1;
    if held.None? || token !in w.lines {
      LessStuck(cfg, w, w', l);
    } else {
      TakeRefreshIsStep(w, id, token, clientID, io);
      TakeStepStuck(cfg, w, w', id, token, w.lines[token], held.value, l);
    }
  }

  lemma RenewStuck(cfg: Config, w: World, id: nat, draw: Option<string>, io: Io, l: string)
    requires id in w.requests && Drawn(draw) !! w.drawn && Stuck(cfg, w, l)
    ensures Stuck(cfg, AfterRenew(w, id, draw, io), l)
  {
  }

  lemma MintStuck(cfg: Config, w: World, id: nat, l: string)
    requires id in w.requests && Stuck(cfg, w, l)
    ensures Stuck(cfg, AfterMint(cfg, w, id), l)
  {
    LessStuck(cfg, w, AfterMint(cfg, w, id), l);
  }

  lemma TokenEndpointStuck(cfg: Config, w: World, e: Event, l: string)
    requires Serviceable(cfg) && Lawful(w, e) && Keyed(w) && Stuck(cfg, w, l) && AtTokenEndpoint(e)
    ensures Stuck(cfg, Next(cfg, w, e), l)
  {
    match e {
      case TakeCode(id, code, clientID, redirectURI, verifier) =>
          TakeCodeStuck(cfg, w, id, code, clientID, redirectURI, verifier, l);
      case TakeRefresh(id, token, clientID, io) => TakeRefreshStuck(cfg, w, id, token, clientID, io, l);
      case Mint(id) => MintStuck(cfg, w, id, l);
      case Renew(id, draw, io) => RenewStuck(cfg, w, id, draw, io, l);
    }
  }

  lemma AdminStuck(cfg: Config, w: World, e: Event, l: string)
    requires IsAdmin(e) && Stuck(cfg, w, l)
    ensures Stuck(cfg, w.(st := AfterAdmin(w.st, e), printed := w.printed + AdminPrints(e)), l)
  {
    AdminGrants(w.st, e);
    LessStuck(cfg, w, w.(st := AfterAdmin(w.st, e), printed := w.printed + AdminPrints(e)), l);
  }

  lemma RestStuck(cfg: Config, w: World, e: Event, l: string)
    requires Serviceable(cfg) && Lawful(w, e) && Stuck(cfg, w, l) && Restful(e)
    ensures Stuck(cfg, Next(cfg, w, e), l)
  {
    LessStuck(cfg, w, Next(cfg, w, e), l);
  }

  lemma NextStuck(cfg: Config, w: World, e: Event, l: string)
    requires Serviceable(cfg) && Lawful(w, e) && Keyed(w) && Stuck(cfg, w, l)
    ensures Stuck(cfg, Next(cfg, w, e), l)
  {
    if e.Submit? {
      SubmitStuck(cfg, w, e.id, e.env, e.post, l);
    } else if e.CallbackReturns? {
      CallbackStuck(cfg, w, e.id, e.tail, e.result, l);
    } else if AtTokenEndpoint(e) {
      TokenEndpointStuck(cfg, w, e, l);
    } else if IsAdmin(e) {
      AdminStuck(cfg, w, e, l);
    } else {
      RestStuck(cfg, w, e, l);
    }
  }

  /** Over every run a line that is stuck stays stuck. */
  lemma {:induction false} StaysStuck(cfg: Config, w: World, events: seq<Event>, l: string)
    requires Serviceable(cfg) && Sound(cfg, w) && Runs(cfg, w, events) && Stuck(cfg, w, l)
    ensures Stuck(cfg, After(cfg, w, events), l)
    decreases |events|
  {
    if events != [] {
      NextStuck(cfg, w, events[0], l);
      NextSound(cfg, w, events[0]);
      StaysStuck(cfg, Next(cfg, w, events[0]), events[1..], l);
    }
  }

  lemma NothingRefreshed(cfg: Config, p: World, events: seq<Event>, name: string)
    requires Serviceable(cfg) && Cleared(cfg, p, name) && Runs(cfg, p, events) && NeverAdds(events, name)
    requires !InFlight(p, name) && !Redeemable(cfg, p, name)
    ensures NoRefreshOf(After(cfg, p, events), name)
  {
    var w := After(cfg, p, events);
    RunFollows(cfg, p, events, name);
    forall t | t in w.st.refresh ensures w.st.refresh[t].principal.name != name {
      if w.st.refresh[t].principal.name == name {
        RefreshedFromCode(cfg, p, w, name, t);
        StaysStuck(cfg, p, events, w.lines[t]);
      }
    }
  }

  lemma RefreshedFromCode(cfg: Config, p: World, w: World, name: string, t: string)
    requires Cleared(cfg, p, name) && Follows(cfg, p, w, name) && !InFlight(p, name) && !Redeemable(cfg, p, name)
    requires t in w.st.refresh && w.st.refresh[t].principal.name == name
    ensures t in w.lines && Stuck(cfg, p, w.lines[t])
  {
    var l := w.lines[t];
    assert w.st.refresh[t] == RefreshOf(w.auths[l].grant);
    PlacesCarry(w);
    HeldAtPurge(cfg, p, w, name, l);
    assert p.st.codes[l] == p.auths[l].grant == w.auths[l].grant;
  }

  // ----- at a removal ----------------------------------------------------

  /** In every run, the world in which a removal has purged the refresh tokens is
      such a world. */
  lemma RemovalClears(
      cfg: Config, now: int, past: seq<Event>, name: string, r: Removed, io: Io, io1: Io, io2: Io, a: seq<Event>,
      b: seq<Event>, c: seq<Event>)
    requires Serviceable(cfg) && Leads(cfg, Start(now), past, r.before)
              && RemovalRun(cfg, name, r, io, io1, io2, a, b, c)
    ensures Cleared(cfg, AtPurge(cfg, r, name, io1), name)
    ensures Follows(cfg, AtPurge(cfg, r, name, io1), r.later, name)
  {
    StartReaches(cfg, now, past, r.before);
    RemovalStages(cfg, name, r, io, io1, io2, a, b, c);
    RemovesRecord(cfg, r.before, name, io);
    StageAbsent(cfg, r.before, RemoveRecord(name, io), a, r.refresh, name);
    PurgesRefresh(cfg, r.refresh, name, io1);
    forall l ensures NotRevived(AtPurge(cfg, r, name, io1), r.later, l) {
      RemovalHistory(cfg, name, r, io, io1, io2, a, b, c, l);
    }
  }

  /** After a removal that found no unredeemed code and no request under way,
      nothing of the name is held or minted until it is added again. */
  lemma RemovalLeavesNothing(
      cfg: Config, now: int, past: seq<Event>, name: string, r: Removed, io: Io, io1: Io, io2: Io, a: seq<Event>,
      b: seq<Event>, c: seq<Event>)
    requires Serviceable(cfg) && Leads(cfg, Start(now), past, r.before)
              && RemovalRun(cfg, name, r, io, io1, io2, a, b, c)
    requires !InFlight(AtPurge(cfg, r, name, io1), name) && !Unredeemed(AtPurge(cfg, r, name, io1), name)
    ensures NothingOf(AtPurge(cfg, r, name, io1), r.later, name)
  {
    RemovalClears(cfg, now, past, name, r, io, io1, io2, a, b, c);
    NothingFollows(cfg, AtPurge(cfg, r, name, io1), r.later, name);
  }
}
