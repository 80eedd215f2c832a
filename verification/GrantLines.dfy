/** Single use, lines of tokens and projection, over every run: what one
    authorization code grants is always held in at most one place, and every
    token of its line says what the code said. */
module GrantLines {
  import opened Wrappers
  import opened Identity
  import opened Stores
  import opened Tokens
  import opened Authorize
  import opened Promises
  import opened AuthorizeFacts
  import opened Lifecycle

  // ----- invariants ------------------------------------------------------

  /** Keys were drawn, drawn values serve once, and every line has its
      authorization. */
  ghost predicate Keyed(w: World) {
    && w.st.codes.Keys <= w.auths.Keys <= w.drawn
    && w.st.refresh.Keys <= w.lines.Keys <= w.drawn
    && w.auths.Keys !! w.lines.Keys
    && (forall t :: t in w.lines ==> w.lines[t] in w.auths)
    && (forall id :: id in w.requests ==> w.requests[id].line in w.auths)
    && (forall i :: 0 <= i < |w.tokens| ==> w.tokens[i].line in w.auths)
  }

  /** The three places that can hold a line never hold the same one twice. */
  ghost predicate Exclusive(w: World) {
    && (forall t :: t in w.st.refresh && t in w.lines ==> w.lines[t] !in w.st.codes)
    && (forall t, u :: t in w.st.refresh && u in w.st.refresh && t in w.lines && u in w.lines && t != u ==>
          w.lines[t] != w.lines[u])
    && (forall id :: id in w.requests ==> w.requests[id].line !in w.st.codes)
    && (forall id, t :: id in w.requests && t in w.st.refresh && t in w.lines ==> w.requests[id].line != w.lines[t])
    && (forall id, j :: id in w.requests && j in w.requests && w.requests[id].line == w.requests[j].line ==> id == j)
  }

  /** Codes and refresh tokens are redeemed once, and are gone then. */
  ghost predicate RedeemedOnce(w: World) {
    && (forall i :: 0 <= i < |w.redeemed| ==>
          w.redeemed[i].token in w.drawn && w.redeemed[i].token !in w.st.codes && w.redeemed[i].token !in w.st.refresh)
    && (forall i, j :: 0 <= i < j < |w.redeemed| ==> w.redeemed[i].token != w.redeemed[j].token)
  }

  function HeldOf(g: AuthGrant): Held { Held(g.clientID, g.scope, g.resource, g.principal) }

  function RefreshOf(g: AuthGrant): RefreshGrant { RefreshGrant(g.clientID, g.scope, g.resource, g.principal) }

  /** The token says what the code said, its binding projected once, under the
      name and key of the server. */
  predicate TokenSays(cfg: Config, t: Token, g: AuthGrant) {
    && t.claims.subject == g.clientID && t.claims.scope == g.scope && t.claims.audience == g.resource
    && t.claims.principal == g.principal.name
    && ShownAs(cfg, g.principal.binding, g.resource, t.claims.binding)
    && t.alg == cfg.issuer.alg && cfg.issuer.signKey == Some(t.signedWith) && t.claims.issuer == cfg.issuer.issuer
  }

  ghost predicate Faithful(cfg: Config, w: World) {
    && (forall c :: c in w.st.codes && c in w.auths ==> w.st.codes[c] == w.auths[c].grant)
    && (forall t :: t in w.st.refresh && t in w.lines && w.lines[t] in w.auths ==>
        w.st.refresh[t] == RefreshOf(w.auths[w.lines[t]].grant))
    && (forall id :: id in w.requests && w.requests[id].line in w.auths ==>
        w.requests[id].held == HeldOf(w.auths[w.requests[id].line].grant))
    && (forall i :: 0 <= i < |w.tokens| && w.tokens[i].line in w.auths ==>
        TokenSays(cfg, w.tokens[i].token, w.auths[w.tokens[i].line].grant))
  }

  ghost predicate Sound(cfg: Config, w: World) {
    Keyed(w) && Exclusive(w) && RedeemedOnce(w) && Faithful(cfg, w)
  }

  // ----- steps of the authorize flow -------------------------------------

  /** What a submission or a callback's return does to the grants: nothing,
      or one freshly drawn code. */
  ghost predicate OneFreshCode(st: State, st': State, response: Response, drawn: Option<string>) {
    && st'.refresh == st.refresh
    && (if response.RedirectCode?
        then drawn == Some(response.code) && response.code in st'.codes
             && st'.codes == st.codes[response.code := st'.codes[response.code]]
        else st'.codes == st.codes)
  }

  ghost predicate OutcomeIssuesOne(st: State, out: Outcome, drawn: Option<string>) {
    match out
    case Done(st', response) => OneFreshCode(st, st', response, drawn)
    case Asks(st', _) => st'.codes == st.codes && st'.refresh == st.refresh
  }

  lemma ShapeIssuesOne(cfg: Config, st: State, tail: Tail, flow: Flow, out: Outcome)
    requires Serviceable(cfg) && DispatchShape(cfg, st, tail, flow, out)
    ensures OutcomeIssuesOne(st, out, tail.codeDraw)
  {
    if out.Done? && !(out.response.Show? && out.st == st) {
      var who :| MayIssue(flow, who) && (out.st, out.response) == Issue(cfg, st, tail, flow, who);
      IssueIssuesOne(cfg, st, tail, flow, who);
    }
  }

  lemma IssueIssuesOne(cfg: Config, st: State, tail: Tail, flow: Flow, who: Grant)
    requires Serviceable(cfg)
    ensures var (st', response) := Issue(cfg, st, tail, flow, who);
            OneFreshCode(st, st', response, tail.codeDraw)
  {
  }

  lemma PostIssuesOne(cfg: Config, st: State, env: Env, post: Post)
    requires Serviceable(cfg)
    ensures OutcomeIssuesOne(st, AuthorizePost(cfg, st, env, post), env.tail.codeDraw)
  {
    var flow, out := PostShape(cfg, st, env, post);
    var st1 := AfterIdentity(st, env, post.get("pairing_code"));
    if PassedGates(cfg, st, env, post, flow) && DispatchShape(cfg, st1, env.tail, flow, out) {
      ShapeIssuesOne(cfg, st1, env.tail, flow, out);
    }
  }

  lemma FinishIssuesOne(cfg: Config, st: State, tail: Tail, call: EnrollCall, result: EnrollResult)
    requires Serviceable(cfg)
    ensures var (st', response) := FinishEnroll(cfg, st, tail, call, result);
            OneFreshCode(st, st', response, tail.codeDraw)
  {
  }

  /** The worlds before and after such a step. */
  ghost predicate FlowStep(w: World, w': World, response: Response, drawn: Option<string>, from: Origin) {
    && OneFreshCode(w.st, w'.st, response, drawn)
    && Drawn(drawn) !! w.drawn && w.drawn + Drawn(drawn) <= w'.drawn
    && w'.auths == Noted(w.auths, w'.st, response, from)
    && w'.requests == w.requests && w'.lines == w.lines && w'.proofs == w.proofs
    && w'.tokens == w.tokens && w'.redeemed == w.redeemed
  }

  lemma FlowStepSound(cfg: Config, w: World, w': World, response: Response, drawn: Option<string>, from: Origin)
    requires Sound(cfg, w) && FlowStep(w, w', response, drawn, from)
    ensures Sound(cfg, w')
  {
    if response.RedirectCode? {
      var c := response.code;
      assert c !in w.drawn && c in w'.drawn;
      assert forall t :: t in w.lines ==> w.lines[t] != c;
    }
  }

  // ----- steps of the token endpoint -------------------------------------

  /** A request takes the line a code or a refresh token carried. */
  ghost predicate TakeStep(w: World, w': World, id: nat, token: string, line: string, held: Held) {
    && id !in w.requests
    && ((token in w.st.codes && line == token && held == HeldOf(w.st.codes[token]))
        || (token in w.st.refresh && token in w.lines && line == w.lines[token]
            && RefreshGrant(held.clientID, held.scope, held.resource, held.principal) == w.st.refresh[token]))
    && w'.st.codes == w.st.codes - {token} && w'.st.refresh == w.st.refresh - {token}
    && w'.requests == w.requests[id := TokenRequest(held, line, false)]
    && NotesRedemption(w, w', token, line)
    && w'.drawn == w.drawn && w'.auths == w.auths && w'.lines == w.lines && w'.tokens == w.tokens
  }

  /** One more redemption is noted. */
  ghost predicate NotesRedemption(w: World, w': World, token: string, line: string) {
    && |w'.redeemed| == |w.redeemed| + 1 && w'.redeemed[..|w.redeemed|] == w.redeemed
    && w'.redeemed[|w.redeemed|].token == token && w'.redeemed[|w.redeemed|].line == line
  }

  lemma TakeKeepsExclusive(w: World, w': World, id: nat, token: string, line: string, held: Held)
    requires Keyed(w) && Exclusive(w) && TakeStep(w, w', id, token, line, held)
    ensures Exclusive(w')
  {
    TakenLeaves(w, w', id, token, line, held);
  }

  lemma TakenLeaves(w: World, w': World, id: nat, token: string, line: string, held: Held)
    requires Keyed(w) && Exclusive(w) && TakeStep(w, w', id, token, line, held)
    ensures line !in w'.st.codes && (forall t :: t in w'.st.refresh ==> w.lines[t] != line)
    ensures forall j :: j in w.requests ==> w.requests[j].line != line
  {
    assert token in w.st.codes ==> token !in w.st.refresh;
  }

  lemma TakeKeepsKeyed(w: World, w': World, id: nat, token: string, line: string, held: Held)
    requires Keyed(w) && TakeStep(w, w', id, token, line, held)
    ensures Keyed(w')
  {
  }

  lemma TakeKeepsRedeemed(w: World, w': World, id: nat, token: string, line: string, held: Held)
    requires Keyed(w) && RedeemedOnce(w) && TakeStep(w, w', id, token, line, held)
    ensures RedeemedOnce(w')
  {
    assert token in w.drawn;
  }

  lemma TakeKeepsFaithful(cfg: Config, w: World, w': World, id: nat, token: string, line: string, held: Held)
    requires Keyed(w) && Faithful(cfg, w) && TakeStep(w, w', id, token, line, held)
    ensures Faithful(cfg, w')
  {
  }

  lemma TakeStepSound(cfg: Config, w: World, w': World, id: nat, token: string, line: string, held: Held)
    requires Sound(cfg, w) && TakeStep(w, w', id, token, line, held)
    ensures Sound(cfg, w')
  {
    TakeKeepsKeyed(w, w', id, token, line, held);
    TakeKeepsExclusive(w, w', id, token, line, held);
    TakeKeepsRedeemed(w, w', id, token, line, held);
    TakeKeepsFaithful(cfg, w, w', id, token, line, held);
  }

  lemma TakeCodeIsStep(
      cfg: Config, w: World, id: nat, code: string, clientID: string, redirectURI: string, verifier: string)
    requires Keyed(w) && id !in w.requests
    requires RedeemCode(cfg, w.st, w.now, code, clientID, redirectURI, verifier).1.Some?
    ensures TakeStep(w, AfterTakeCode(cfg, w, id, code, clientID, redirectURI, verifier), id, code, code,
                     RedeemCode(cfg, w.st, w.now, code, clientID, redirectURI, verifier).1.value)
  {
    assert code in w.st.codes && code !in w.st.refresh;
    assert w.st.refresh - {code} == w.st.refresh;
  }

  lemma TakeRefreshIsStep(w: World, id: nat, token: string, clientID: string, io: Io)
    requires Keyed(w) && id !in w.requests
    requires RedeemRefresh(w.st, token, clientID, io).1.Some? && token in w.lines
    ensures TakeStep(w, AfterTakeRefresh(w, id, token, clientID, io), id, token, w.lines[token],
                     RedeemRefresh(w.st, token, clientID, io).1.value)
  {
    assert token in w.st.refresh && token !in w.st.codes;
    assert w.st.codes - {token} == w.st.codes;
  }

  lemma TakeCodeSound(
      cfg: Config, w: World, id: nat, code: string, clientID: string, redirectURI: string, verifier: string)
    requires Sound(cfg, w) && id !in w.requests
    ensures Sound(cfg, AfterTakeCode(cfg, w, id, code, clientID, redirectURI, verifier))
  {
    var w' := AfterTakeCode(cfg, w, id, code, clientID, redirectURI, verifier);
    var held := RedeemCode(cfg, w.st, w.now, code, clientID, redirectURI, verifier).1;
    if held.None? {
      LessSound(cfg, w, w');
    } else {
      TakeCodeIsStep(cfg, w, id, code, clientID, redirectURI, verifier);
      TakeStepSound(cfg, w, w', id, code, code, held.value);
    }
  }

  lemma TakeRefreshSound(cfg: Config, w: World, id: nat, token: string, clientID: string, io: Io)
    requires Sound(cfg, w) && id !in w.requests
    ensures Sound(cfg, AfterTakeRefresh(w, id, token, clientID, io))
  {
    var w' := AfterTakeRefresh(w, id, token, clientID, io);
    var held := RedeemRefresh(w.st, token, clientID, io).1;
    if held.None? || token !in w.lines {
      LessSound(cfg, w, w');
    } else {
      TakeRefreshIsStep(w, id, token, clientID, io);
      TakeStepSound(cfg, w, w', id, token, w.lines[token], held.value);
    }
  }

  /** Minting marks the request and adds one token that says what its line
      says. */
  ghost predicate MintStep(cfg: Config, w: World, w': World, id: nat, token: Token) {
    && id in w.requests
    && w' == w.(requests := w.requests[id := w.requests[id].(minted := true)],
        tokens := w.tokens + [Minted(token, w.requests[id].line)])
    && (w.requests[id].line in w.auths ==> TokenSays(cfg, token, w.auths[w.requests[id].line].grant))
  }

  lemma MintKeepsFaithful(cfg: Config, w: World, w': World, id: nat, token: Token)
    requires Keyed(w) && Faithful(cfg, w) && MintStep(cfg, w, w', id, token)
    ensures Faithful(cfg, w')
  {
    assert forall j :: j in w'.requests ==>
        j in w.requests && w'.requests[j].line == w.requests[j].line && w'.requests[j].held == w.requests[j].held;
  }

  lemma MintStepSound(cfg: Config, w: World, w': World, id: nat, token: Token)
    requires Sound(cfg, w) && MintStep(cfg, w, w', id, token)
    ensures Sound(cfg, w')
  {
    assert forall j :: j in w'.requests ==> j in w.requests && w'.requests[j].line == w.requests[j].line;
    assert Keyed(w') && Exclusive(w');
    MintKeepsFaithful(cfg, w, w', id, token);
  }

  lemma MintSound(cfg: Config, w: World, id: nat)
    requires Sound(cfg, w) && id in w.requests
    ensures Sound(cfg, AfterMint(cfg, w, id))
  {
    var minted := MintHeld(cfg, w.requests[id].held, w.now);
    if minted.Err? {
      LessSound(cfg, w, AfterMint(cfg, w, id));
    } else {
      MintStepSound(cfg, w, AfterMint(cfg, w, id), id, minted.value);
    }
  }

  lemma RenewSound(cfg: Config, w: World, id: nat, draw: Option<string>, io: Io)
    requires Sound(cfg, w) && id in w.requests && Drawn(draw) !! w.drawn
    ensures Sound(cfg, AfterRenew(w, id, draw, io))
  {
    var w' := AfterRenew(w, id, draw, io);
    assert w'.requests == w.requests - {id};
    if !Stored(draw, io) {
      LessSound(cfg, w, w');
    } else {
      RenewStepSound(cfg, w, w', id, draw.value);
    }
  }

  /** The line moves from the request to a fresh refresh token. */
  ghost predicate RenewStep(w: World, w': World, id: nat, token: string) {
    && id in w.requests && token !in w.drawn && w'.drawn == w.drawn + {token}
    && w'.requests == w.requests - {id} && w'.lines == w.lines[token := w.requests[id].line]
    && w'.st.codes == w.st.codes
    && w'.st.refresh == w.st.refresh[token := RefreshHeld(w.requests[id].held)]
    && w'.auths == w.auths && w'.tokens == w.tokens && w'.redeemed == w.redeemed
  }

  function RefreshHeld(h: Held): RefreshGrant { RefreshGrant(h.clientID, h.scope, h.resource, h.principal) }

  lemma RenewKeepsExclusive(w: World, w': World, id: nat, token: string)
    requires Keyed(w) && Exclusive(w) && RenewStep(w, w', id, token)
    ensures Exclusive(w')
  {
    assert token !in w.lines && token !in w.auths;
    assert forall t :: t in w.st.refresh ==> w'.lines[t] == w.lines[t] && w.lines[t] != w.requests[id].line;
    assert forall j :: j in w'.requests ==> w'.requests[j].line != w.requests[id].line;
  }

  lemma RenewKeepsKeyed(w: World, w': World, id: nat, token: string)
    requires Keyed(w) && RenewStep(w, w', id, token)
    ensures Keyed(w')
  {
  }

  lemma RenewKeepsFaithful(cfg: Config, w: World, w': World, id: nat, token: string)
    requires Keyed(w) && Faithful(cfg, w) && RenewStep(w, w', id, token)
    ensures Faithful(cfg, w')
  {
    assert token !in w.lines;
    assert forall t :: t in w'.st.refresh && t != token ==>
        w'.st.refresh[t] == w.st.refresh[t] && w'.lines[t] == w.lines[t];
  }

  lemma RenewStepSound(cfg: Config, w: World, w': World, id: nat, token: string)
    requires Sound(cfg, w) && RenewStep(w, w', id, token)
    ensures Sound(cfg, w')
  {
    RenewKeepsKeyed(w, w', id, token);
    RenewKeepsExclusive(w, w', id, token);
    RenewKeepsFaithful(cfg, w, w', id, token);
    assert RedeemedOnce(w');
  }

  /** The administrative operations leave codes alone and take refresh tokens
      away at most. */
  lemma AdminGrants(st: State, e: Event)
    requires IsAdmin(e)
    ensures AfterAdmin(st, e).codes == st.codes
    ensures forall t :: t in AfterAdmin(st, e).refresh ==>
              t in st.refresh && AfterAdmin(st, e).refresh[t] == st.refresh[t]
  {
    if !e.PurgeRefreshOf? {
      assert AfterAdmin(st, e).refresh == st.refresh;
    }
  }

  /** Other steps take grants away at most. */
  lemma LessSound(cfg: Config, w: World, w': World)
    requires Sound(cfg, w)
    requires forall c :: c in w'.st.codes ==> c in w.st.codes && w'.st.codes[c] == w.st.codes[c]
    requires forall t :: t in w'.st.refresh ==> t in w.st.refresh && w'.st.refresh[t] == w.st.refresh[t]
    requires forall id :: id in w'.requests ==> id in w.requests && w'.requests[id] == w.requests[id]
    requires w.drawn <= w'.drawn && w'.auths == w.auths && w'.lines == w.lines
    requires w'.tokens == w.tokens && w'.redeemed == w.redeemed
    ensures Sound(cfg, w')
  {
  }

  lemma SubmitSound(cfg: Config, w: World, id: nat, env: Env, post: Post)
    requires Serviceable(cfg) && Lawful(w, Submit(id, env, post)) && Sound(cfg, w)
    ensures Sound(cfg, AfterSubmit(cfg, w, id, env, post))
  {
    PostIssuesOne(cfg, w.st, env, post);
    SubmittedSound(cfg, w, id, env, post, AuthorizePost(cfg, w.st, env, post));
  }

  lemma SubmittedSound(cfg: Config, w: World, id: nat, env: Env, post: Post, out: Outcome)
    requires Sound(cfg, w) && FreshTail(w, env.tail) && OutcomeIssuesOne(w.st, out, env.tail.codeDraw)
    ensures Sound(cfg, Submitted(w, id, env, post, out))
  {
    var w' := Submitted(w, id, env, post, out);
    match out {
      case Done(st, response) => FlowStepSound(cfg, w, w', response, env.tail.codeDraw, Origin(w.st, env, post, false));
      case Asks(_, _) => LessSound(cfg, w, w');
    }
  }

  lemma CallbackSound(cfg: Config, w: World, id: nat, tail: Tail, result: EnrollResult)
    requires Serviceable(cfg) && Lawful(w, CallbackReturns(id, tail, result)) && Sound(cfg, w)
    ensures Sound(cfg, AfterCallback(cfg, w, id, tail, result))
  {
    var c := w.calling[id];
    FinishIssuesOne(cfg, w.st, tail, c.call, result);
    var response := FinishEnroll(cfg, w.st, tail, c.call, result).1;
    FlowStepSound(cfg, w, AfterCallback(cfg, w, id, tail, result), response, tail.codeDraw, c.from);
  }

  lemma AdminSound(cfg: Config, w: World, e: Event)
    requires IsAdmin(e) && Sound(cfg, w)
    ensures Sound(cfg, w.(st := AfterAdmin(w.st, e), printed := w.printed + AdminPrints(e)))
  {
    AdminGrants(w.st, e);
    LessSound(cfg, w, w.(st := AfterAdmin(w.st, e), printed := w.printed + AdminPrints(e)));
  }

  predicate AtTokenEndpoint(e: Event) { e.TakeCode? || e.TakeRefresh? || e.Mint? || e.Renew? }

  lemma TokenEndpointSound(cfg: Config, w: World, e: Event)
    requires Serviceable(cfg) && Lawful(w, e) && Sound(cfg, w) && AtTokenEndpoint(e)
    ensures Sound(cfg, Next(cfg, w, e))
  {
    match e {
      case TakeCode(id, code, clientID, redirectURI, verifier) =>
          TakeCodeSound(cfg, w, id, code, clientID, redirectURI, verifier);
      case TakeRefresh(id, token, clientID, io) => TakeRefreshSound(cfg, w, id, token, clientID, io);
      case Mint(id) => MintSound(cfg, w, id);
      case Renew(id, draw, io) => RenewSound(cfg, w, id, draw, io);
    }
  }

  /** Registration, giving up a token request, and time. */
  predicate Restful(e: Event) { e.Register? || e.Abandon? || e.Tick? }

  lemma RestSound(cfg: Config, w: World, e: Event)
    requires Serviceable(cfg) && Lawful(w, e) && Sound(cfg, w) && Restful(e)
    ensures Sound(cfg, Next(cfg, w, e))
  {
    LessSound(cfg, w, Next(cfg, w, e));
  }

  lemma RestNoRevival(cfg: Config, w: World, e: Event)
    requires Serviceable(cfg) && Lawful(w, e) && Restful(e)
    ensures NoRevival(w, Next(cfg, w, e))
  {
    LessNoRevival(w, Next(cfg, w, e));
  }

  lemma NextSound(cfg: Config, w: World, e: Event)
    requires Serviceable(cfg) && Lawful(w, e) && Sound(cfg, w)
    ensures Sound(cfg, Next(cfg, w, e))
  {
    if e.Submit? {
      SubmitSound(cfg, w, e.id, e.env, e.post);
    } else if e.CallbackReturns? {
      CallbackSound(cfg, w, e.id, e.tail, e.result);
    } else if AtTokenEndpoint(e) {
      TokenEndpointSound(cfg, w, e);
    } else if IsAdmin(e) {
      AdminSound(cfg, w, e);
    } else {
      RestSound(cfg, w, e);
    }
  }

  lemma {:induction false} AlwaysSound(cfg: Config, w: World, events: seq<Event>)
    requires Serviceable(cfg) && Sound(cfg, w) && Runs(cfg, w, events)
    ensures Sound(cfg, After(cfg, w, events))
    decreases |events|
  {
    if events != [] {
      NextSound(cfg, w, events[0]);
      AlwaysSound(cfg, Next(cfg, w, events[0]), events[1..]);
    }
  }

  lemma StartSound(cfg: Config, now: int)
    ensures Sound(cfg, Start(now))
  {
  }

  // ----- single use ------------------------------------------------------

  /** Where a line can be held: as its code, as a live refresh token that
      descends from the code, or by a token request in flight. */
  datatype Place = AsCode(code: string) | AsRefresh(token: string) | InRequest(id: nat)

  ghost function Places(w: World, line: string): set<Place> {
    (set c | c in w.st.codes && c == line :: AsCode(c))
    + (set t | t in w.st.refresh && t in w.lines && w.lines[t] == line :: AsRefresh(t))
    + (set id | id in w.requests && w.requests[id].line == line :: InRequest(id))
  }

  lemma SmallSet<T>(s: set<T>)
    requires forall x, y :: x in s && y in s ==> x == y
    ensures |s| <= 1
  {
    if x :| x in s {
      assert s == {x};
    }
  }

  /** Over every interleaving of any number of requests, what a code grants is
      held in at most one place, and no code or refresh token is redeemed
      twice. */
  lemma SingleUse(cfg: Config, now: int, events: seq<Event>, line: string)
    requires Serviceable(cfg) && Runs(cfg, Start(now), events)
    ensures |Places(After(cfg, Start(now), events), line)| <= 1
    ensures RedeemedOnce(After(cfg, Start(now), events))
  {
    StartSound(cfg, now);
    AlwaysSound(cfg, Start(now), events);
    OnePlace(cfg, After(cfg, Start(now), events), line);
  }

  lemma OnePlace(cfg: Config, w: World, line: string)
    requires Sound(cfg, w)
    ensures |Places(w, line)| <= 1
  {
    SmallSet(Places(w, line));
  }

  /** Along refresh chains of any length every access token has the client,
      scope, audience and name of the original code, and its binding is the
      projection of the code's own binding, applied once. */
  lemma ProjectedOnce(cfg: Config, now: int, events: seq<Event>, i: nat)
    requires Serviceable(cfg) && Runs(cfg, Start(now), events)
    requires i < |After(cfg, Start(now), events).tokens|
    ensures var w := After(cfg, Start(now), events);
            && w.tokens[i].line in w.auths
            && TokenSays(cfg, w.tokens[i].token, w.auths[w.tokens[i].line].grant)
  {
    StartSound(cfg, now);
    AlwaysSound(cfg, Start(now), events);
  }

  // ----- lines do not revive ---------------------------------------------

  ghost predicate Carried(w: World, line: string) { Places(w, line) != {} }

  lemma CarriedWhere(w: World, line: string)
    ensures Carried(w, line) <==>
            || line in w.st.codes
            || (exists t :: t in w.st.refresh && t in w.lines && w.lines[t] == line)
            || (exists id :: id in w.requests && w.requests[id].line == line)
  {
    if line in w.st.codes {
      assert AsCode(line) in Places(w, line);
    }
    if t :| t in w.st.refresh && t in w.lines && w.lines[t] == line {
      assert AsRefresh(t) in Places(w, line);
    }
    if id :| id in w.requests && w.requests[id].line == line {
      assert InRequest(id) in Places(w, line);
    }
    if Carried(w, line) {
      var x :| x in Places(w, line);
      match x {
        case AsCode(c) => assert c in w.st.codes;
        case AsRefresh(t) => assert t in w.st.refresh && t in w.lines && w.lines[t] == line;
        case InRequest(id) => assert id in w.requests && w.requests[id].line == line;
      }
    }
  }

  /** Authorizations and minted tokens accumulate. */
  ghost predicate Accumulates(w: World, w': World) {
    && (forall c :: c in w.auths ==> c in w'.auths && w'.auths[c] == w.auths[c])
    && w.tokens <= w'.tokens
  }

  /** A step gives a known line no new place unless it had one, and mints
      only on lines in flight. */
  ghost predicate NoRevival(w: World, w': World) {
    && Accumulates(w, w')
    && (forall line :: line in w.auths && line in w'.st.codes ==> line in w.st.codes)
    && (forall t :: t in w'.st.refresh && t in w'.lines && w'.lines[t] in w.auths ==> Carried(w, w'.lines[t]))
    && (forall id :: id in w'.requests && w'.requests[id].line in w.auths ==> Carried(w, w'.requests[id].line))
    && (forall i :: |w.tokens| <= i < |w'.tokens| ==> Carried(w, w'.tokens[i].line))
  }

  lemma PlacesCarry(w: World)
    ensures forall c :: c in w.st.codes ==> Carried(w, c)
    ensures forall t :: t in w.st.refresh && t in w.lines ==> Carried(w, w.lines[t])
    ensures forall id :: id in w.requests ==> Carried(w, w.requests[id].line)
  {
    forall c | c in w.st.codes ensures Carried(w, c) { CarriedWhere(w, c); }
    forall t | t in w.st.refresh && t in w.lines ensures Carried(w, w.lines[t]) { CarriedWhere(w, w.lines[t]); }
    forall id | id in w.requests ensures Carried(w, w.requests[id].line) { CarriedWhere(w, w.requests[id].line); }
  }

  lemma TokenEndpointNoRevival(cfg: Config, w: World, e: Event)
    requires Serviceable(cfg) && Lawful(w, e) && Keyed(w) && AtTokenEndpoint(e)
    ensures NoRevival(w, Next(cfg, w, e))
  {
    match e {
      case TakeCode(id, code, clientID, redirectURI, verifier) =>
          TakeCodeNoRevival(cfg, w, id, code, clientID, redirectURI, verifier);
      case TakeRefresh(id, token, clientID, io) => TakeRefreshNoRevival(w, id, token, clientID, io);
      case Mint(id) => MintNoRevival(cfg, w, id);
      case Renew(id, draw, io) => RenewNoRevival(w, id, draw, io);
    }
  }

  lemma FlowStepNoRevival(cfg: Config, w: World, e: Event)
    requires Serviceable(cfg) && Lawful(w, e) && Sound(cfg, w) && (e.Submit? || e.CallbackReturns?)
    ensures NoRevival(w, Next(cfg, w, e))
  {
    if e.Submit? {
      SubmitNoRevival(cfg, w, e.id, e.env, e.post);
    } else {
      CallbackNoRevival(cfg, w, e.id, e.tail, e.result);
    }
  }

  lemma NextNoRevival(cfg: Config, w: World, e: Event)
    requires Serviceable(cfg) && Lawful(w, e) && Sound(cfg, w)
    ensures NoRevival(w, Next(cfg, w, e))
  {
    if e.Submit? || e.CallbackReturns? {
      FlowStepNoRevival(cfg, w, e);
    } else if AtTokenEndpoint(e) {
      TokenEndpointNoRevival(cfg, w, e);
    } else {
      OtherNoRevival(cfg, w, e);
    }
  }

  lemma OtherNoRevival(cfg: Config, w: World, e: Event)
    requires Serviceable(cfg) && Lawful(w, e) && (IsAdmin(e) || Restful(e))
    ensures NoRevival(w, Next(cfg, w, e))
  {
    if IsAdmin(e) {
      AdminStepNoRevival(cfg, w, e);
    } else {
      RestNoRevival(cfg, w, e);
    }
  }

  lemma AdminStepNoRevival(cfg: Config, w: World, e: Event)
    requires Serviceable(cfg) && Lawful(w, e) && IsAdmin(e)
    ensures NoRevival(w, Next(cfg, w, e))
  {
    AdminNoRevival(w, e);
  }

  lemma LessNoRevival(w: World, w': World)
    requires w'.auths == w.auths && w'.lines == w.lines && w'.tokens == w.tokens
    requires w'.st.codes.Keys <= w.st.codes.Keys && w'.st.refresh.Keys <= w.st.refresh.Keys
    requires forall id :: id in w'.requests ==> id in w.requests && w'.requests[id] == w.requests[id]
    ensures NoRevival(w, w')
  {
    PlacesCarry(w);
  }

  lemma TakeStepNoRevival(w: World, w': World, id: nat, token: string, line: string, held: Held)
    requires TakeStep(w, w', id, token, line, held)
    ensures NoRevival(w, w')
  {
    PlacesCarry(w);
    assert Carried(w, line);
  }

  lemma TakeCodeNoRevival(
      cfg: Config, w: World, id: nat, code: string, clientID: string, redirectURI: string, verifier: string)
    requires Keyed(w) && id !in w.requests
    ensures NoRevival(w, AfterTakeCode(cfg, w, id, code, clientID, redirectURI, verifier))
  {
    var w' := AfterTakeCode(cfg, w, id, code, clientID, redirectURI, verifier);
    var held := RedeemCode(cfg, w.st, w.now, code, clientID, redirectURI, verifier).1;
    if held.None? {
      LessNoRevival(w, w');
    } else {
      TakeCodeIsStep(cfg, w, id, code, clientID, redirectURI, verifier);
      TakeStepNoRevival(w, w', id, code, code, held.value);
    }
  }

  lemma TakeRefreshNoRevival(w: World, id: nat, token: string, clientID: string, io: Io)
    requires Keyed(w) && id !in w.requests
    ensures NoRevival(w, AfterTakeRefresh(w, id, token, clientID, io))
  {
    var w' := AfterTakeRefresh(w, id, token, clientID, io);
    var held := RedeemRefresh(w.st, token, clientID, io).1;
    if held.None? || token !in w.lines {
      LessNoRevival(w, w');
    } else {
      TakeRefreshIsStep(w, id, token, clientID, io);
      TakeStepNoRevival(w, w', id, token, w.lines[token], held.value);
    }
  }

  lemma MintNoRevival(cfg: Config, w: World, id: nat)
    requires id in w.requests
    ensures NoRevival(w, AfterMint(cfg, w, id))
  {
    PlacesCarry(w);
  }

  lemma FlowNoRevival(cfg: Config, w: World, w': World, response: Response, drawn: Option<string>, from: Origin)
    requires Sound(cfg, w) && FlowStep(w, w', response, drawn, from)
    ensures NoRevival(w, w')
  {
    PlacesCarry(w);
  }

  lemma SubmitNoRevival(cfg: Config, w: World, id: nat, env: Env, post: Post)
    requires Serviceable(cfg) && Lawful(w, Submit(id, env, post)) && Sound(cfg, w)
    ensures NoRevival(w, AfterSubmit(cfg, w, id, env, post))
  {
    PostIssuesOne(cfg, w.st, env, post);
    SubmittedNoRevival(cfg, w, id, env, post, AuthorizePost(cfg, w.st, env, post));
  }

  lemma SubmittedNoRevival(cfg: Config, w: World, id: nat, env: Env, post: Post, out: Outcome)
    requires Sound(cfg, w) && FreshTail(w, env.tail) && OutcomeIssuesOne(w.st, out, env.tail.codeDraw)
    ensures NoRevival(w, Submitted(w, id, env, post, out))
  {
    var w' := Submitted(w, id, env, post, out);
    match out {
      case Done(st, response) => FlowNoRevival(cfg, w, w', response, env.tail.codeDraw, Origin(w.st, env, post, false));
      case Asks(_, _) => LessNoRevival(w, w');
    }
  }

  lemma CallbackNoRevival(cfg: Config, w: World, id: nat, tail: Tail, result: EnrollResult)
    requires Serviceable(cfg) && Lawful(w, CallbackReturns(id, tail, result)) && Sound(cfg, w)
    ensures NoRevival(w, AfterCallback(cfg, w, id, tail, result))
  {
    var c := w.calling[id];
    FinishIssuesOne(cfg, w.st, tail, c.call, result);
    var response := FinishEnroll(cfg, w.st, tail, c.call, result).1;
    FlowNoRevival(cfg, w, AfterCallback(cfg, w, id, tail, result), response, tail.codeDraw, c.from);
  }

  lemma RenewNoRevival(w: World, id: nat, draw: Option<string>, io: Io)
    requires id in w.requests && Drawn(draw) !! w.drawn && Keyed(w)
    ensures NoRevival(w, AfterRenew(w, id, draw, io))
  {
    PlacesCarry(w);
  }

  lemma AdminNoRevival(w: World, e: Event)
    requires IsAdmin(e)
    ensures NoRevival(w, w.(st := AfterAdmin(w.st, e), printed := w.printed + AdminPrints(e)))
  {
    AdminGrants(w.st, e);
    LessNoRevival(w, w.(st := AfterAdmin(w.st, e), printed := w.printed + AdminPrints(e)));
  }

  /** A token was minted on the line between the two worlds. */
  ghost predicate MintedOn(w: World, w': World, line: string) {
    exists i :: |w.tokens| <= i < |w'.tokens| && w'.tokens[i].line == line
  }

  /** If the line was known at w, what is carried or minted later was carried
      then. */
  ghost predicate NotRevived(w: World, w': World, line: string) {
    line in w.auths ==> (Carried(w', line) || MintedOn(w, w', line) ==> Carried(w, line))
  }

  lemma StepNotRevived(w: World, w': World, line: string)
    requires NoRevival(w, w')
    ensures NotRevived(w, w', line)
  {
    CarriedWhere(w, line);
    CarriedWhere(w', line);
  }

  lemma NotRevivedTransitive(w: World, w1: World, w2: World, line: string)
    requires Accumulates(w, w1) && Accumulates(w1, w2)
    requires NotRevived(w, w1, line) && NotRevived(w1, w2, line)
    ensures Accumulates(w, w2) && NotRevived(w, w2, line)
  {
    if MintedOn(w, w2, line) {
      var i :| |w.tokens| <= i < |w2.tokens| && w2.tokens[i].line == line;
      if i < |w1.tokens| {
        assert w2.tokens[i] == w1.tokens[i];
        assert MintedOn(w, w1, line);
      } else {
        assert MintedOn(w1, w2, line);
      }
    }
  }

  /** Over any run, a line known at the start that is held or minted on later
      was held at the start: once given up, a line never revives. */
  lemma {:induction false} LinesNeverRevive(cfg: Config, w: World, events: seq<Event>, line: string)
    requires Serviceable(cfg) && Sound(cfg, w) && Runs(cfg, w, events)
    ensures Accumulates(w, After(cfg, w, events))
    ensures NotRevived(w, After(cfg, w, events), line)
    decreases |events|
  {
    if events != [] {
      var w1 := Next(cfg, w, events[0]);
      NextSound(cfg, w, events[0]);
      NextNoRevival(cfg, w, events[0]);
      StepNotRevived(w, w1, line);
      LinesNeverRevive(cfg, w1, events[1..], line);
      NotRevivedTransitive(w, w1, After(cfg, w1, events[1..]), line);
    }
  }
}
