/** Where every grant comes from, over every run: one authorize POST that
    passed the gates, and for tokens a verifier that matched. */
module Provenance {
  import opened Wrappers
  import opened Identity
  import opened Stores
  import opened Authorize
  import opened AuthorizeFacts
  import opened Promises
  import opened BindingChoice
  import opened AuthorizeForm
  import opened Handlers
  import opened Lifecycle
  import opened Tokens
  import opened GrantLines

  /** The grant a code carries repeats the request that was approved. */
  ghost predicate GrantFrom(cfg: Config, flow: Flow, g: AuthGrant)
    requires Serviceable(cfg)
  {
    && g.clientID == flow.client.id && g.redirectURI == flow.p.redirectURI
    && g.codeChallenge == flow.p.codeChallenge && g.codeChallengeMethod == flow.p.codeChallengeMethod
    && ScopeAsked(cfg, flow.p, g.scope) && AudienceAsked(cfg, flow.p, g.resource)
    && g.principal.name == flow.who.name
  }

  ghost predicate FlowOf(cfg: Config, a: Authorization, flow: Flow)
    requires Serviceable(cfg)
  {
    PassedGates(cfg, a.from.st, a.from.env, a.from.post, flow) && GrantFrom(cfg, flow, a.grant)
  }

  /** Registered clients stay as they are. */
  ghost predicate StillRegistered(st: State, later: State) {
    forall k :: k in st.clients ==> k in later.clients && later.clients[k] == st.clients[k]
  }

  ghost predicate ClientsKeyed(w: World) {
    w.st.clients.Keys <= w.drawn && OwnIds(w.st.clients)
  }

  /** Tests on recorded approvals, kept abstract where only their
      preservation matters. */
  type AuthTest = Authorization -> bool
  type CallTest = Calling -> bool

  ghost function ApprovedAuth(cfg: Config): AuthTest
    requires Serviceable(cfg)
  {
    (a: Authorization) => BindingGranted(a) && BoundFor(cfg, a) && exists flow :: FlowOf(cfg, a, flow)
  }

  /** A code that an approval issued without enrolling, to a name for whose resource
      there is an enrollment, was for a name with a binding there: what a token for
      this resource shows of the stored binding was not empty. */
  ghost predicate BoundFor(cfg: Config, a: Authorization) {
    var name := a.grant.principal.name;
    !a.from.enrolled && name != "" && Enrolls(cfg, Parse(a.from.post.get)).Some? ==>
      && name in a.from.st.principals
      && forall bound :: ShownAs(cfg, a.from.st.principals[name].binding, a.grant.resource, bound) ==> bound != map[]
  }

  lemma IssuedIsBound(cfg: Config, st: State, env: Env, post: Post, flow: Flow, g: AuthGrant)
    requires Serviceable(cfg) && PassedGates(cfg, st, env, post, flow) && GrantFrom(cfg, flow, g)
    requires AuthorizePost(cfg, st, env, post).Done? && AuthorizePost(cfg, st, env, post).response.RedirectCode?
    ensures flow.who.name != "" && Enrolls(cfg, flow.p).Some? ==>
              && flow.who.name in st.principals
              && forall bound :: ShownAs(cfg, st.principals[flow.who.name].binding, g.resource, bound) ==>
                  bound != map[]
  {
    SubmissionExactly(cfg, st, env, post);
    RecognizedIsCurrent(cfg, st, env, flow.pairingCode, post.cookie);
    if flow.who.name != "" && Enrolls(cfg, flow.p).Some? {
      var st1 := AfterIdentity(st, env, flow.pairingCode);
      NeverIssuesEnrolling(cfg, st1, env.tail, flow, post.get);
      forall bound | ShownAs(cfg, flow.who.binding, g.resource, bound) ensures bound != map[] {
        DivertsExactly(cfg, st1, env.tail, flow, post.get, g.resource, bound);
      }
    }
  }

  /** A round of enrollment issues nothing before its callback. */
  lemma NeverIssuesEnrolling(cfg: Config, st: State, tail: Tail, flow: Flow, get: string -> string)
    requires Serviceable(cfg) && flow.who.name != "" && Enrolls(cfg, flow.p).Some?
    ensures var out := Dispatch(cfg, st, tail, flow, get);
            out.Done? && out.response.RedirectCode? ==> NotEnrolling(get)
  {
  }

  /** The binding of a code: of an enrollment, what was stored for the name just
      after the merge; of any other approval, a narrowing of what was stored
      when the POST came in. */
  ghost predicate BindingGranted(a: Authorization) {
    if a.from.enrolled then StoredFor(a.into, a.grant.principal) else NarrowedFrom(a.from.st, a.grant.principal)
  }

  predicate StoredFor(st: State, who: Grant) {
    who.name in st.principals && who.binding == st.principals[who.name].binding
  }

  ghost function ApprovedCall(cfg: Config): CallTest {
    (c: Calling) => c.from.enrolled && PassedGates(cfg, c.from.st, c.from.env, c.from.post, c.call.flow)
  }

  ghost predicate AuthsPass(w: World, good: AuthTest) {
    forall c :: c in w.auths ==> StillRegistered(w.auths[c].from.st, w.st) && good(w.auths[c])
  }

  ghost predicate CallsPass(w: World, goodCall: CallTest) {
    forall id :: id in w.calling ==> StillRegistered(w.calling[id].from.st, w.st) && goodCall(w.calling[id])
  }

  /** Everything past redemption shows a verifier that matches its line. */
  ghost predicate Proved(cfg: Config, w: World) {
    && (forall l :: l in w.proofs ==> l in w.auths && ShownFor(cfg, w.proofs[l], w.auths[l].grant))
    && (forall t :: t in w.lines ==> w.lines[t] in w.proofs)
    && (forall id :: id in w.requests ==> w.requests[id].line in w.proofs)
    && (forall i :: 0 <= i < |w.tokens| ==> w.tokens[i].line in w.proofs)
  }

  predicate ShownFor(cfg: Config, verifier: string, g: AuthGrant) {
    VerifyPKCE(cfg, g.codeChallenge, g.codeChallengeMethod, verifier)
  }

  ghost predicate Passes(cfg: Config, w: World, good: AuthTest, goodCall: CallTest) {
    ClientsKeyed(w) && AuthsPass(w, good) && CallsPass(w, goodCall) && Proved(cfg, w)
  }

  ghost predicate Traced(cfg: Config, w: World)
    requires Serviceable(cfg)
  {
    Passes(cfg, w, ApprovedAuth(cfg), ApprovedCall(cfg))
  }

  // ----- single steps ----------------------------------------------------

  /** What a code issued by Issue carries. */
  lemma IssuedGrant(cfg: Config, st: State, tail: Tail, flow: Flow, who: Grant)
    requires Serviceable(cfg) && who.name == flow.who.name
    requires ResolveFor(cfg, flow.p).Some?
    requires Issue(cfg, st, tail, flow, who).1.RedirectCode?
    ensures Issue(cfg, st, tail, flow, who).1.code in Issue(cfg, st, tail, flow, who).0.codes
    ensures GrantFrom(cfg, flow, Issue(cfg, st, tail, flow, who).0.codes[Issue(cfg, st, tail, flow, who).1.code])
    ensures Issue(cfg, st, tail, flow, who).0.clients == st.clients
  {
  }

  /** A POST leaves the clients alone; what it issues, and the callback it
      calls, are for the request that passed the gates. */
  lemma PostTraced(cfg: Config, st: State, env: Env, post: Post) returns (flow: Flow, out: Outcome)
    requires Serviceable(cfg)
    ensures out == AuthorizePost(cfg, st, env, post)
    ensures out.st.clients == st.clients
    ensures out.Done? && out.response.RedirectCode? ==>
              PassedGates(cfg, st, env, post, flow) && out.response.code in out.st.codes
              && GrantFrom(cfg, flow, out.st.codes[out.response.code])
    ensures out.Asks? ==> out.call.flow == flow && PassedGates(cfg, st, env, post, flow)
  {
    flow, out := PostShape(cfg, st, env, post);
    var st1 := AfterIdentity(st, env, post.get("pairing_code"));
    if PassedGates(cfg, st, env, post, flow) && DispatchShape(cfg, st1, env.tail, flow, out) {
      assert ResolveFor(cfg, flow.p).Some?;
      ShapeTraced(cfg, st1, env.tail, flow, out);
    }
  }

  lemma ShapeTraced(cfg: Config, st: State, tail: Tail, flow: Flow, out: Outcome)
    requires Serviceable(cfg) && DispatchShape(cfg, st, tail, flow, out) && ResolveFor(cfg, flow.p).Some?
    ensures out.st.clients == st.clients
    ensures out.Done? && out.response.RedirectCode? ==>
              out.response.code in out.st.codes && GrantFrom(cfg, flow, out.st.codes[out.response.code])
    ensures out.Asks? ==> out.call.flow == flow
  {
    if out.Done? && out.response.RedirectCode? {
      var who :| MayIssue(flow, who) && (out.st, out.response) == Issue(cfg, st, tail, flow, who);
      IssuedGrant(cfg, st, tail, flow, who);
    }
  }

  lemma FinishTraced(cfg: Config, st: State, tail: Tail, call: EnrollCall, result: EnrollResult)
    requires Serviceable(cfg) && ResolveFor(cfg, call.flow.p).Some?
    ensures var (st', response) := FinishEnroll(cfg, st, tail, call, result);
            && st'.clients == st.clients
            && (response.RedirectCode? ==>
                  response.code in st'.codes && GrantFrom(cfg, call.flow, st'.codes[response.code]))
  {
  }

  // ----- steps of the world ----------------------------------------------

  /** What a step that notes an approval or a call leaves alone. */
  ghost predicate GrantsAlone(w: World, w': World) {
    && w'.st.clients == w.st.clients && w.drawn <= w'.drawn
    && w'.lines == w.lines && w'.proofs == w.proofs && w'.tokens == w.tokens && w'.requests == w.requests
  }

  lemma NotesCode(cfg: Config, w: World, w': World, code: string, a: Authorization, good: AuthTest, goodCall: CallTest)
    requires Passes(cfg, w, good, goodCall) && GrantsAlone(w, w')
    requires code !in w.auths && w'.auths == w.auths[code := a]
    requires StillRegistered(a.from.st, w.st) && good(a)
    requires forall id :: id in w'.calling ==> id in w.calling && w'.calling[id] == w.calling[id]
    ensures Passes(cfg, w', good, goodCall)
  {
    assert Proved(cfg, w');
  }

  lemma NotesCall(cfg: Config, w: World, w': World, id: nat, c: Calling, good: AuthTest, goodCall: CallTest)
    requires Passes(cfg, w, good, goodCall) && GrantsAlone(w, w')
    requires w'.auths == w.auths && w'.calling == w.calling[id := c]
    requires StillRegistered(c.from.st, w.st) && goodCall(c)
    ensures Passes(cfg, w', good, goodCall)
  {
    assert Proved(cfg, w');
  }

  lemma NotesLess(cfg: Config, w: World, w': World, good: AuthTest, goodCall: CallTest)
    requires Passes(cfg, w, good, goodCall) && GrantsAlone(w, w') && w'.auths == w.auths
    requires forall id :: id in w'.calling ==> id in w.calling && w'.calling[id] == w.calling[id]
    ensures Passes(cfg, w', good, goodCall)
  {
    assert Proved(cfg, w');
  }

  /** A step that notes no approval. */
  lemma NotesNothing(cfg: Config, w: World, w': World, good: AuthTest, goodCall: CallTest)
    requires Passes(cfg, w, good, goodCall)
    requires ClientsKeyed(w') && StillRegistered(w.st, w'.st)
    requires w'.auths == w.auths && w'.calling == w.calling && Proved(cfg, w')
    ensures Passes(cfg, w', good, goodCall)
  {
    forall c | c in w'.auths ensures StillRegistered(w'.auths[c].from.st, w'.st) { }
    forall id | id in w'.calling ensures StillRegistered(w'.calling[id].from.st, w'.st) { }
  }

  /** What is noted of a code. */
  function NoteOf(from: Origin, st: State, response: Response): Authorization
    requires response.RedirectCode? && response.code in st.codes
  {
    Authorization(from, st, st.codes[response.code])
  }

  /** What PostTraced says, in terms of the tests. */
  lemma PostApproved(
      cfg: Config, st: State, env: Env, post: Post, good: AuthTest, goodCall: CallTest) returns (out: Outcome)
    requires Serviceable(cfg) && good == ApprovedAuth(cfg) && goodCall == ApprovedCall(cfg)
    ensures out == AuthorizePost(cfg, st, env, post)
    ensures out.st.clients == st.clients
    ensures out.Done? && out.response.RedirectCode? ==>
              out.response.code in out.st.codes && good(NoteOf(Origin(st, env, post, false), out.st, out.response))
    ensures out.Asks? ==> goodCall(Calling(out.call, Origin(st, env, post, true)))
  {
    var flow;
    flow, out := PostTraced(cfg, st, env, post);
    if out.Done? && out.response.RedirectCode? {
      IssuedCodesAreNarrowed(cfg, st, env, post);
      IssuedIsBound(cfg, st, env, post, flow, out.st.codes[out.response.code]);
      ApprovedBy(cfg, NoteOf(Origin(st, env, post, false), out.st, out.response), flow);
    }
  }

  lemma ApprovedBy(cfg: Config, a: Authorization, flow: Flow)
    requires Serviceable(cfg) && FlowOf(cfg, a, flow) && BindingGranted(a) && BoundFor(cfg, a)
    ensures ApprovedAuth(cfg)(a)
  {
  }

  lemma SubmitTraced(cfg: Config, w: World, id: nat, env: Env, post: Post, good: AuthTest, goodCall: CallTest)
    requires Serviceable(cfg) && good == ApprovedAuth(cfg) && goodCall == ApprovedCall(cfg)
    requires Lawful(w, Submit(id, env, post)) && Sound(cfg, w) && Passes(cfg, w, good, goodCall)
    ensures Passes(cfg, AfterSubmit(cfg, w, id, env, post), good, goodCall)
  {
    var out := PostApproved(cfg, w.st, env, post, good, goodCall);
    PostIssuesOne(cfg, w.st, env, post);
    SubmitNotes(cfg, w, id, env, post, out, good, goodCall);
  }

  lemma SubmitNotes(
      cfg: Config, w: World, id: nat, env: Env, post: Post, out: Outcome, good: AuthTest, goodCall: CallTest)
    requires Passes(cfg, w, good, goodCall) && Keyed(w) && FreshTail(w, env.tail)
    requires out.st.clients == w.st.clients && OutcomeIssuesOne(w.st, out, env.tail.codeDraw)
    requires out.Done? && out.response.RedirectCode? && out.response.code in out.st.codes
             ==> good(NoteOf(Origin(w.st, env, post, false), out.st, out.response))
    requires out.Asks? ==> goodCall(Calling(out.call, Origin(w.st, env, post, true)))
    ensures Passes(cfg, Submitted(w, id, env, post, out), good, goodCall)
  {
    var w' := Submitted(w, id, env, post, out);
    if out.Asks? {
      NotesCall(cfg, w, w', id, Calling(out.call, Origin(w.st, env, post, true)), good, goodCall);
    } else {
      var from := Origin(w.st, env, post, false);
      ResponseNotes(cfg, w, w', from, out.st, out.response, env.tail.codeDraw, good, goodCall);
    }
  }

  /** A response hands out a fresh code that is noted, or none. */
  lemma ResponseNotes(
      cfg: Config, w: World, w': World, from: Origin, st: State, response: Response, drawn: Option<string>,
      good: AuthTest, goodCall: CallTest)
    requires Passes(cfg, w, good, goodCall) && Keyed(w) && Drawn(drawn) !! w.drawn && GrantsAlone(w, w')
    requires OneFreshCode(w.st, st, response, drawn) && w'.auths == Noted(w.auths, st, response, from)
    requires StillRegistered(from.st, w.st)
    requires forall id :: id in w'.calling ==> id in w.calling && w'.calling[id] == w.calling[id]
    requires response.RedirectCode? && response.code in st.codes ==> good(NoteOf(from, st, response))
    ensures Passes(cfg, w', good, goodCall)
  {
    if response.RedirectCode? {
      NotesCode(cfg, w, w', response.code, NoteOf(from, st, response), good, goodCall);
    } else {
      NotesLess(cfg, w, w', good, goodCall);
    }
  }

  lemma CallbackTraced(
      cfg: Config, w: World, id: nat, tail: Tail, result: EnrollResult, good: AuthTest, goodCall: CallTest)
    requires Serviceable(cfg) && good == ApprovedAuth(cfg) && goodCall == ApprovedCall(cfg)
    requires Lawful(w, CallbackReturns(id, tail, result)) && Sound(cfg, w) && Passes(cfg, w, good, goodCall)
    ensures Passes(cfg, AfterCallback(cfg, w, id, tail, result), good, goodCall)
  {
    var c := w.calling[id];
    FinishIssuesOne(cfg, w.st, tail, c.call, result);
    var (st', response) := FinishEnroll(cfg, w.st, tail, c.call, result);
    FinishApproved(cfg, w.st, tail, c, result, good, goodCall);
    ResponseNotes(cfg, w, Returned(w, id, tail, st', response), c.from, st', response, tail.codeDraw, good, goodCall);
  }

  lemma FinishApproved(
      cfg: Config, st: State, tail: Tail, c: Calling, result: EnrollResult, good: AuthTest, goodCall: CallTest)
    requires Serviceable(cfg) && good == ApprovedAuth(cfg) && goodCall == ApprovedCall(cfg) && goodCall(c)
    ensures var (st', response) := FinishEnroll(cfg, st, tail, c.call, result);
            && st'.clients == st.clients
            && (response.RedirectCode? && response.code in st'.codes ==> good(NoteOf(c.from, st', response)))
  {
    assert ResolveFor(cfg, c.call.flow.p).Some?;
    FinishTraced(cfg, st, tail, c.call, result);
    var (st', response) := FinishEnroll(cfg, st, tail, c.call, result);
    if response.RedirectCode? {
      EnrollmentFailsClosed(cfg, st, tail, c.call, result);
      ApprovedBy(cfg, NoteOf(c.from, st', response), c.call.flow);
    }
  }

  /** A request in flight on a proved line. */
  lemma TakePasses(cfg: Config, w: World, w': World, id: nat, r: TokenRequest, good: AuthTest, goodCall: CallTest)
    requires Passes(cfg, w, good, goodCall)
    requires w'.st.clients == w.st.clients && w'.drawn == w.drawn && w'.auths == w.auths && w'.calling == w.calling
    requires w'.requests == w.requests[id := r]
    requires w'.lines == w.lines && w'.tokens == w.tokens
    requires r.line in w'.proofs && r.line in w.auths && ShownFor(cfg, w'.proofs[r.line], w.auths[r.line].grant)
    requires w'.proofs == w.proofs[r.line := w'.proofs[r.line]]
    ensures Passes(cfg, w', good, goodCall)
  {
    assert Proved(cfg, w');
    NotesNothing(cfg, w, w', good, goodCall);
  }

  lemma TakeCodePasses(
      cfg: Config, w: World, id: nat, code: string, clientID: string, redirectURI: string, verifier: string,
      good: AuthTest, goodCall: CallTest)
    requires Passes(cfg, w, good, goodCall)
    requires code in w.st.codes ==> code in w.auths && w.auths[code].grant == w.st.codes[code]
    ensures Passes(cfg, AfterTakeCode(cfg, w, id, code, clientID, redirectURI, verifier), good, goodCall)
  {
    var w' := AfterTakeCode(cfg, w, id, code, clientID, redirectURI, verifier);
    var held := RedeemCode(cfg, w.st, w.now, code, clientID, redirectURI, verifier).1;
    if held.None? {
      QuietPasses(cfg, w, w', good, goodCall);
    } else {
      assert ShownFor(cfg, verifier, w.st.codes[code]);
      TakePasses(cfg, w, w', id, TokenRequest(held.value, code, false), good, goodCall);
    }
  }

  lemma TakeRefreshPasses(
      cfg: Config, w: World, id: nat, token: string, clientID: string, io: Io, good: AuthTest, goodCall: CallTest)
    requires Passes(cfg, w, good, goodCall)
    ensures Passes(cfg, AfterTakeRefresh(w, id, token, clientID, io), good, goodCall)
  {
    var w' := AfterTakeRefresh(w, id, token, clientID, io);
    var held := RedeemRefresh(w.st, token, clientID, io).1;
    if held.None? || token !in w.lines {
      QuietPasses(cfg, w, w', good, goodCall);
    } else {
      var line := w.lines[token];
      assert line in w.proofs;
      assert w.proofs == w.proofs[line := w.proofs[line]];
      TakePasses(cfg, w, w', id, TokenRequest(held.value, line, false), good, goodCall);
    }
  }

  lemma MintPasses(cfg: Config, w: World, id: nat, good: AuthTest, goodCall: CallTest)
    requires Passes(cfg, w, good, goodCall) && id in w.requests
    ensures Passes(cfg, AfterMint(cfg, w, id), good, goodCall)
  {
    var w' := AfterMint(cfg, w, id);
    assert Proved(cfg, w');
    NotesNothing(cfg, w, w', good, goodCall);
  }

  lemma RenewPasses(cfg: Config, w: World, id: nat, draw: Option<string>, io: Io, good: AuthTest, goodCall: CallTest)
    requires Passes(cfg, w, good, goodCall) && id in w.requests
    ensures Passes(cfg, AfterRenew(w, id, draw, io), good, goodCall)
  {
    var w' := AfterRenew(w, id, draw, io);
    assert Proved(cfg, w');
    NotesNothing(cfg, w, w', good, goodCall);
  }

  lemma QuietPasses(cfg: Config, w: World, w': World, good: AuthTest, goodCall: CallTest)
    requires Passes(cfg, w, good, goodCall)
    requires ClientsKeyed(w') && StillRegistered(w.st, w'.st)
    requires w'.auths == w.auths && w'.calling == w.calling && w'.proofs == w.proofs && w'.lines == w.lines
              && w'.tokens == w.tokens
    requires forall id :: id in w'.requests ==> id in w.requests && w'.requests[id] == w.requests[id]
    ensures Passes(cfg, w', good, goodCall)
  {
    assert Proved(cfg, w');
    NotesNothing(cfg, w, w', good, goodCall);
  }

  lemma RegisterPasses(
      cfg: Config, w: World, uris: seq<string>, name: string, draw: Option<string>, io: Io, good: AuthTest,
      goodCall: CallTest)
    requires Passes(cfg, w, good, goodCall) && Drawn(draw) !! w.drawn
    ensures Passes(cfg, w.(st := AfterRegister(w.st, uris, name, draw, io), drawn := w.drawn + Drawn(draw)), good,
              goodCall)
  {
    QuietPasses(cfg, w, w.(st := AfterRegister(w.st, uris, name, draw, io), drawn := w.drawn + Drawn(draw)), good,
        goodCall);
  }

  lemma AdminPasses(cfg: Config, w: World, e: Event, good: AuthTest, goodCall: CallTest)
    requires Passes(cfg, w, good, goodCall) && IsAdmin(e)
    ensures Passes(cfg, w.(st := AfterAdmin(w.st, e), printed := w.printed + AdminPrints(e)), good, goodCall)
  {
    QuietPasses(cfg, w, w.(st := AfterAdmin(w.st, e), printed := w.printed + AdminPrints(e)), good, goodCall);
  }

  lemma TokenEndpointPasses(cfg: Config, w: World, e: Event, good: AuthTest, goodCall: CallTest)
    requires Serviceable(cfg) && Lawful(w, e) && Sound(cfg, w) && Passes(cfg, w, good, goodCall)
    requires AtTokenEndpoint(e)
    ensures Passes(cfg, Next(cfg, w, e), good, goodCall)
  {
    match e {
      case TakeCode(id, code, clientID, redirectURI, verifier) =>
        TakeCodePasses(cfg, w, id, code, clientID, redirectURI, verifier, good, goodCall);
      case TakeRefresh(id, token, clientID, io) => TakeRefreshPasses(cfg, w, id, token, clientID, io, good, goodCall);
      case Mint(id) => MintPasses(cfg, w, id, good, goodCall);
      case Renew(id, draw, io) => RenewPasses(cfg, w, id, draw, io, good, goodCall);
    }
  }

  lemma RestPasses(cfg: Config, w: World, e: Event, good: AuthTest, goodCall: CallTest)
    requires Serviceable(cfg) && Lawful(w, e) && Passes(cfg, w, good, goodCall)
    requires !e.Submit? && !e.CallbackReturns? && !AtTokenEndpoint(e)
    ensures Passes(cfg, Next(cfg, w, e), good, goodCall)
  {
    if e.Register? {
      RegisterPasses(cfg, w, e.redirectURIs, e.name, e.draw, e.io, good, goodCall);
    } else if IsAdmin(e) {
      AdminPasses(cfg, w, e, good, goodCall);
    } else {
      QuietPasses(cfg, w, Next(cfg, w, e), good, goodCall);
    }
  }

  lemma NextPasses(cfg: Config, w: World, e: Event, good: AuthTest, goodCall: CallTest)
    requires Serviceable(cfg) && good == ApprovedAuth(cfg) && goodCall == ApprovedCall(cfg)
    requires Lawful(w, e) && Sound(cfg, w) && Passes(cfg, w, good, goodCall)
    ensures Passes(cfg, Next(cfg, w, e), good, goodCall)
  {
    if e.Submit? {
      SubmitTraced(cfg, w, e.id, e.env, e.post, good, goodCall);
    } else if e.CallbackReturns? {
      CallbackTraced(cfg, w, e.id, e.tail, e.result, good, goodCall);
    } else if AtTokenEndpoint(e) {
      TokenEndpointPasses(cfg, w, e, good, goodCall);
    } else {
      RestPasses(cfg, w, e, good, goodCall);
    }
  }

  lemma {:induction false} AlwaysTraced(cfg: Config, w: World, events: seq<Event>)
    requires Serviceable(cfg) && Sound(cfg, w) && Traced(cfg, w) && Runs(cfg, w, events)
    ensures Traced(cfg, After(cfg, w, events))
    decreases |events|
  {
    if events != [] {
      NextSound(cfg, w, events[0]);
      NextPasses(cfg, w, events[0], ApprovedAuth(cfg), ApprovedCall(cfg));
      AlwaysTraced(cfg, Next(cfg, w, events[0]), events[1..]);
    }
  }

  /** In every reachable world each code ever issued, and so each live code,
      refresh token and access token of its line, has the binding that its
      approval allowed. */
  lemma EveryBindingGranted(cfg: Config, now: int, events: seq<Event>)
    requires Serviceable(cfg) && Runs(cfg, Start(now), events)
    ensures var w := After(cfg, Start(now), events);
            forall c :: c in w.auths ==> BindingGranted(w.auths[c])
  {
    StartSound(cfg, now);
    AlwaysTraced(cfg, Start(now), events);
    var w := After(cfg, Start(now), events);
    forall c | c in w.auths ensures BindingGranted(w.auths[c]) {
      assert ApprovedAuth(cfg)(w.auths[c]);
    }
  }

  /** In every run no code was issued outside an enrollment to a name that has one
      for the resource and whose stored binding shows nothing there. */
  lemma NoneUnbound(cfg: Config, now: int, events: seq<Event>)
    requires Serviceable(cfg) && Runs(cfg, Start(now), events)
    ensures var w := After(cfg, Start(now), events);
            forall c :: c in w.auths ==> BoundFor(cfg, w.auths[c])
  {
    StartSound(cfg, now);
    AlwaysTraced(cfg, Start(now), events);
    var w := After(cfg, Start(now), events);
    forall c | c in w.auths ensures BoundFor(cfg, w.auths[c]) {
      assert ApprovedAuth(cfg)(w.auths[c]);
    }
  }

  /** Nor does any token of such a line show an empty binding, when the stored one
      holds no sets, or when only its keys decide what the projection empties. */
  lemma NoTokenUnbound(cfg: Config, now: int, events: seq<Event>, i: nat)
    requires Serviceable(cfg) && Runs(cfg, Start(now), events)
    requires i < |After(cfg, Start(now), events).tokens|
    ensures var w := After(cfg, Start(now), events);
            w.tokens[i].line in w.auths && ShowsSomething(cfg, w.auths[w.tokens[i].line], w.tokens[i].token)
  {
    StartSound(cfg, now);
    AlwaysSound(cfg, Start(now), events);
    NoneUnbound(cfg, now, events);
    EveryBindingGranted(cfg, now, events);
    TokenShows(cfg, After(cfg, Start(now), events), i);
  }

  ghost predicate ShowsSomething(cfg: Config, a: Authorization, t: Token) {
    var name := a.grant.principal.name;
    !a.from.enrolled && name != "" && Enrolls(cfg, Parse(a.from.post.get)).Some? ==>
      && name in a.from.st.principals
      && (!NeedsChoice(a.from.st.principals[name].binding) || KeysDecide(cfg) ==> t.claims.binding != map[])
  }

  lemma TokenShows(cfg: Config, w: World, i: nat)
    requires i < |w.tokens| && Keyed(w) && Faithful(cfg, w)
    requires BoundFor(cfg, w.auths[w.tokens[i].line]) && BindingGranted(w.auths[w.tokens[i].line])
    ensures ShowsSomething(cfg, w.auths[w.tokens[i].line], w.tokens[i].token)
  {
    var a, t := w.auths[w.tokens[i].line], w.tokens[i].token;
    assert TokenSays(cfg, t, a.grant);
    var name := a.grant.principal.name;
    if !a.from.enrolled && name != "" && Enrolls(cfg, Parse(a.from.post.get)).Some?
       && (!NeedsChoice(a.from.st.principals[name].binding) || KeysDecide(cfg)) {
      NarrowedShows(cfg, a.from.st.principals[name].binding, a.grant.principal.binding, a.grant.resource,
          t.claims.binding);
    }
  }

  /** Bindings with the same keys show nothing alike. */
  ghost predicate KeysDecide(cfg: Config) {
    forall a: Binding, b: Binding, resource, shown, shown' ::
      a.Keys == b.Keys && ShownAs(cfg, a, resource, shown) && ShownAs(cfg, b, resource, shown') && shown == map[] ==>
      shown' == map[]
  }

  lemma NarrowedShows(cfg: Config, stored: Binding, granted: Binding, resource: string, shown: Binding)
    requires Narrows(granted, stored) && ShownAs(cfg, granted, resource, shown)
    requires forall bound :: ShownAs(cfg, stored, resource, bound) ==> bound != map[]
    requires !NeedsChoice(stored) || KeysDecide(cfg)
    ensures shown != map[]
  {
    var bound := if cfg.bindingForResource.Some? then cfg.bindingForResource.value(stored, resource) else stored;
    assert ShownAs(cfg, stored, resource, bound);
    if !NeedsChoice(stored) {
      assert forall k :: k in stored ==> granted[k] == stored[k];
      assert granted == stored;
    }
  }

  /** In every reachable world clients are registered under their own ids. */
  lemma ClientsKeepIds(cfg: Config, now: int, events: seq<Event>)
    requires Serviceable(cfg) && Runs(cfg, Start(now), events)
    ensures OwnIds(After(cfg, Start(now), events).st.clients)
  {
    StartSound(cfg, now);
    AlwaysTraced(cfg, Start(now), events);
  }

  // ----- the theorem -----------------------------------------------------

  /** Line l goes back to an authorize POST in which somebody was recognized,
      for a client registered then and now, one of its redirect URIs, a
      non-empty S256 challenge and an allowed audience; and its grant repeats
      that request. */
  ghost predicate ComesFromApproval(cfg: Config, w: World, l: string, flow: Flow)
    requires Serviceable(cfg)
  {
    && l in w.auths && FlowOf(cfg, w.auths[l], flow)
    && flow.p.clientID in w.st.clients && w.st.clients[flow.p.clientID] == flow.client
    && w.auths[l].grant.clientID == flow.p.clientID
    && AllowsRedirect(flow.client, w.auths[l].grant.redirectURI) && w.auths[l].grant.redirectURI != ""
    && w.auths[l].grant.codeChallenge != "" && w.auths[l].grant.codeChallengeMethod == "S256"
    && w.auths[l].grant.resource in cfg.resources && flow.p.responseType == "code"
  }

  /** The line was redeemed by a request that showed a matching verifier. */
  ghost predicate VerifierShown(cfg: Config, w: World, l: string) {
    && l in w.proofs && l in w.auths && w.proofs[l] != ""
    && cfg.s256(w.proofs[l]) == w.auths[l].grant.codeChallenge
  }

  /** The line was approved and redeemed. */
  ghost predicate Accounted(cfg: Config, w: World, l: string)
    requires Serviceable(cfg)
  {
    VerifierShown(cfg, w, l) && exists flow :: ComesFromApproval(cfg, w, l, flow)
  }

  /** In every reachable world each live code, each live refresh token, each
      request in flight and each minted access token traces to such an
      approval, and all but the codes to a matching verifier. */
  lemma EveryGrantTraces(cfg: Config, now: int, events: seq<Event>)
    requires Serviceable(cfg) && Runs(cfg, Start(now), events)
    ensures var w := After(cfg, Start(now), events);
            && (forall c :: c in w.st.codes ==> exists flow :: ComesFromApproval(cfg, w, c, flow))
            && (forall t :: t in w.st.refresh ==> t in w.lines && Accounted(cfg, w, w.lines[t]))
            && (forall id :: id in w.requests ==> Accounted(cfg, w, w.requests[id].line))
            && (forall i :: 0 <= i < |w.tokens| ==> Accounted(cfg, w, w.tokens[i].line))
  {
    StartSound(cfg, now);
    AlwaysSound(cfg, Start(now), events);
    AlwaysTraced(cfg, Start(now), events);
    var w := After(cfg, Start(now), events);
    forall l | l in w.auths ensures exists flow :: ComesFromApproval(cfg, w, l, flow) {
      LineTraces(cfg, w, l);
    }
    forall l | l in w.proofs ensures Accounted(cfg, w, l) {
      assert ShownFor(cfg, w.proofs[l], w.auths[l].grant);
    }
  }

  lemma LineTraces(cfg: Config, w: World, l: string)
    requires Serviceable(cfg) && Traced(cfg, w) && l in w.auths
    ensures exists flow :: ComesFromApproval(cfg, w, l, flow)
  {
    var a := w.auths[l];
    assert ApprovedAuth(cfg)(a);
    var flow :| FlowOf(cfg, a, flow);
    ApprovalSays(cfg, w, a, flow);
    assert ComesFromApproval(cfg, w, l, flow);
  }

  lemma ApprovalSays(cfg: Config, w: World, a: Authorization, flow: Flow)
    requires Serviceable(cfg) && FlowOf(cfg, a, flow) && StillRegistered(a.from.st, w.st) && ClientsKeyed(w)
    ensures flow.p.clientID in w.st.clients && w.st.clients[flow.p.clientID] == flow.client
    ensures a.grant.clientID == flow.p.clientID
    ensures AllowsRedirect(flow.client, a.grant.redirectURI) && a.grant.redirectURI != ""
    ensures a.grant.codeChallenge != "" && a.grant.codeChallengeMethod == S256 && a.grant.resource in cfg.resources
  {
    assert flow.p.clientID in a.from.st.clients;
  }

  // ----- where tokens are good -------------------------------------------

  /** What the approval of flow makes of token t at a verifier, for an unexpired
      token: it is accepted exactly when the request resolved to the verifier's
      audience, and then read as what was granted. */
  ghost predicate GoodOnlyFor(cfg: Config, t: Token, flow: Flow, g: AuthGrant, verifier: Issuer, used: int)
    requires Serviceable(cfg)
  {
    && (Validate(verifier, t, used).Ok? <==> AudienceAsked(cfg, flow.p, verifier.audience))
    && (Validate(verifier, t, used).Ok? ==>
          var v := Validate(verifier, t, used).value;
          && v.clientID == flow.p.clientID && ScopeAsked(cfg, flow.p, v.scope) && v.grant.name == flow.who.name
          && ShownAs(cfg, g.principal.binding, verifier.audience, v.grant.binding) && v.expiresAt == t.claims.expiresAt)
  }

  /** In every run, each access token ever minted, by a code or by any chain of
      refresh tokens, is accepted exactly where its approved request resolved to,
      by every verifier of the server's key. */
  lemma TokensGoodOnlyWhereAsked(cfg: Config, now: int, events: seq<Event>, i: nat, verifier: Issuer, used: int)
    requires Serviceable(cfg) && Runs(cfg, Start(now), events) && HostAndDelegate(cfg.issuer, verifier)
    requires i < |After(cfg, Start(now), events).tokens|
    requires used < After(cfg, Start(now), events).tokens[i].token.claims.expiresAt
    ensures var w := After(cfg, Start(now), events);
            && w.tokens[i].line in w.auths
            && exists flow :: ComesFromApproval(cfg, w, w.tokens[i].line, flow)
                 && GoodOnlyFor(cfg, w.tokens[i].token, flow, w.auths[w.tokens[i].line].grant, verifier, used)
  {
    StartSound(cfg, now);
    AlwaysSound(cfg, Start(now), events);
    AlwaysTraced(cfg, Start(now), events);
    TokenGood(cfg, After(cfg, Start(now), events), i, verifier, used);
  }

  lemma TokenGood(cfg: Config, w: World, i: nat, verifier: Issuer, used: int)
    requires Serviceable(cfg) && Sound(cfg, w) && Traced(cfg, w) && HostAndDelegate(cfg.issuer, verifier)
    requires i < |w.tokens| && used < w.tokens[i].token.claims.expiresAt
    ensures w.tokens[i].line in w.auths
    ensures exists flow :: ComesFromApproval(cfg, w, w.tokens[i].line, flow)
              && GoodOnlyFor(cfg, w.tokens[i].token, flow, w.auths[w.tokens[i].line].grant, verifier, used)
  {
    var l := w.tokens[i].line;
    LineTraces(cfg, w, l);
    var flow :| ComesFromApproval(cfg, w, l, flow);
    SaidIsGood(cfg, w.tokens[i].token, flow, w.auths[l].grant, verifier, used);
  }

  lemma SaidIsGood(cfg: Config, t: Token, flow: Flow, g: AuthGrant, verifier: Issuer, used: int)
    requires Serviceable(cfg) && TokenSays(cfg, t, g) && GrantFrom(cfg, flow, g) && g.clientID == flow.p.clientID
    requires HostAndDelegate(cfg.issuer, verifier) && used < t.claims.expiresAt
    ensures GoodOnlyFor(cfg, t, flow, g, verifier, used)
  {
  }
}
